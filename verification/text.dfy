/** The JavaScript string operations the request helper relies on:
    `toLowerCase`/`toUpperCase` (on ASCII letters), `trim`, `split` and
    `join`. */
module Text {

  import opened Wrappers

  predicate IsUpperAscii(c: char) { 'A' <= c <= 'Z' }

  predicate IsLowerAscii(c: char) { 'a' <= c <= 'z' }

  function LowerChar(c: char): char {
    if IsUpperAscii(c) then (c as int + 32) as char else c
  }

  function UpperChar(c: char): char {
    if IsLowerAscii(c) then (c as int - 32) as char else c
  }

  /** `s.toLowerCase()` restricted to ASCII letters. */
  function ToLower(s: string): (r: string)
    ensures |r| == |s|
    ensures forall i :: 0 <= i < |s| ==> r[i] == LowerChar(s[i])
    ensures forall i :: 0 <= i < |r| ==> !IsUpperAscii(r[i])
  {
    if s == [] then [] else [LowerChar(s[0])] + ToLower(s[1..])
  }

  /** `s.toUpperCase()` restricted to ASCII letters. */
  function ToUpper(s: string): (r: string)
    ensures |r| == |s|
    ensures forall i :: 0 <= i < |s| ==> r[i] == UpperChar(s[i])
    ensures forall i :: 0 <= i < |r| ==> !IsLowerAscii(r[i])
  {
    if s == [] then [] else [UpperChar(s[0])] + ToUpper(s[1..])
  }

  lemma ToUpperIdempotent(s: string)
    ensures ToUpper(ToUpper(s)) == ToUpper(s)
  {
    var u := ToUpper(s);
    assert forall i :: 0 <= i < |u| ==> UpperChar(u[i]) == u[i];
  }

  /** The characters `String.prototype.trim` removes: ECMAScript's
      WhiteSpace and LineTerminator code points. */
  predicate IsTrimmable(c: char) {
    || c == '\t' || c == '\n' || c == '\U{000B}' || c == '\U{000C}' || c == '\r'
    || c == ' ' || c == '\U{00A0}' || c == '\U{1680}'
    || ('\U{2000}' <= c <= '\U{200A}')
    || c == '\U{2028}' || c == '\U{2029}' || c == '\U{202F}' || c == '\U{205F}'
    || c == '\U{3000}' || c == '\U{FEFF}'
  }

  /** The number of trimmable characters `s` starts with. */
  function LeadingTrimmable(s: string): (k: nat)
    ensures k <= |s|
    ensures forall i :: 0 <= i < k ==> IsTrimmable(s[i])
    ensures k < |s| ==> !IsTrimmable(s[k])
  {
    if s != [] && IsTrimmable(s[0]) then 1 + LeadingTrimmable(s[1..]) else 0
  }

  /** The number of trimmable characters `s` ends with. */
  function TrailingTrimmable(s: string): (k: nat)
    ensures k <= |s|
    ensures forall i :: |s| - k <= i < |s| ==> IsTrimmable(s[i])
    ensures k < |s| ==> !IsTrimmable(s[|s| - k - 1])
  {
    if s != [] && IsTrimmable(s[|s| - 1]) then 1 + TrailingTrimmable(s[..|s| - 1]) else 0
  }

  /** `s.trim()`: drop the trimmable characters at both ends. The result is
      the slice of `s` that starts after its leading trimmable run, and it
      neither starts nor ends with a trimmable character. */
  function Trim(s: string): (r: string)
    ensures var lead := LeadingTrimmable(s);
      && lead + |r| <= |s|
      && r == s[lead..lead + |r|]
      && forall i :: lead + |r| <= i < |s| ==> IsTrimmable(s[i])
    ensures |r| > 0 ==> !IsTrimmable(r[0]) && !IsTrimmable(r[|r| - 1])
  {
    var t := s[LeadingTrimmable(s)..];
    t[..|t| - TrailingTrimmable(t)]
  }

  lemma TrimIdempotent(s: string)
    ensures Trim(Trim(s)) == Trim(s)
  {
    var t := Trim(s);
    if |t| > 0 {
      assert LeadingTrimmable(t) == 0;
      assert TrailingTrimmable(t) == 0;
    }
  }

  /** `sep` occurs in `s` starting at index `j`. */
  predicate OccursAt(s: string, sep: string, j: int) {
    0 <= j && j + |sep| <= |s| && s[j..j + |sep|] == sep
  }

  /** The first index at or after `k` where `sep` occurs in `s`. */
  function FindFrom(s: string, sep: string, k: nat): (r: Option<nat>)
    ensures r.Some? ==> k <= r.value && OccursAt(s, sep, r.value)
    ensures r.Some? ==> forall j :: k <= j < r.value ==> !OccursAt(s, sep, j)
    ensures r.None? ==> forall j :: k <= j ==> !OccursAt(s, sep, j)
    decreases |s| - k
  {
    if k + |sep| > |s| then None
    else if s[k..k + |sep|] == sep then Some(k)
    else FindFrom(s, sep, k + 1)
  }

  /** JavaScript's `join`: the pieces in order with `sep` between each
      neighbouring pair. */
  function Join(parts: seq<string>, sep: string): string {
    if |parts| == 0 then ""
    else if |parts| == 1 then parts[0]
    else parts[0] + sep + Join(parts[1..], sep)
  }

  /** A prefix of `s` that stops before `sep`'s first occurrence holds no
      occurrence of `sep`. */
  lemma PrefixBeforeFirstOccurrence(s: string, sep: string, i: nat)
    requires |sep| > 0 && i <= |s|
    requires forall j :: 0 <= j < i ==> !OccursAt(s, sep, j)
    ensures forall j :: !OccursAt(s[..i], sep, j)
  {
    forall j | OccursAt(s[..i], sep, j)
      ensures false
    {
      assert s[..i][j..j + |sep|] == s[j..j + |sep|];
      assert OccursAt(s, sep, j);
    }
  }

  /** `s.split(sep)` for a non-empty separator: the pieces between the
      left-to-right, non-overlapping occurrences of `sep`. Joining the
      pieces with `sep` gives `s` back, no piece contains `sep`, and there
      is more than one piece exactly when `sep` occurs in `s`. */
  function Split(s: string, sep: string): (parts: seq<string>)
    requires |sep| > 0
    ensures |parts| >= 1
    ensures Join(parts, sep) == s
    ensures forall p, j :: p in parts ==> !OccursAt(p, sep, j)
    ensures |parts| == 1 <==> FindFrom(s, sep, 0).None?
    ensures FindFrom(s, sep, 0).Some? ==>
      var i := FindFrom(s, sep, 0).value;
      parts[0] == s[..i] && Join(parts[1..], sep) == s[i + |sep|..]
    decreases |s|
  {
    match FindFrom(s, sep, 0)
    case None => [s]
    case Some(i) =>
      PrefixBeforeFirstOccurrence(s, sep, i);
      var rest := Split(s[i + |sep|..], sep);
      var parts := [s[..i]] + rest;
      assert parts[1..] == rest;
      assert s == s[..i] + sep + s[i + |sep|..];
      assert Join(parts, sep) == s[..i] + sep + Join(rest, sep);
      assert forall p :: p in parts ==> p == s[..i] || p in rest;
      parts
  }

  /** No proper suffix of `sep` is also a prefix of it, so two occurrences
      of `sep` can never overlap ("\r\n" and every one-character string). */
  predicate Unbordered(sep: string) {
    forall d :: 0 < d < |sep| ==> sep[d..] != sep[..|sep| - d]
  }

  /** Before the separator that follows a piece free of `sep`, an
      unbordered `sep` cannot occur. */
  lemma NoOccurrenceInsideFirstPiece(p: string, sep: string, rest: string, j: nat)
    requires |sep| > 0 && Unbordered(sep)
    requires forall k :: !OccursAt(p, sep, k)
    requires j < |p|
    ensures !OccursAt(p + sep + rest, sep, j)
  {
    var s := p + sep + rest;
    if j + |sep| <= |p| {
      assert s[j..j + |sep|] == p[j..j + |sep|];
      assert !OccursAt(p, sep, j);
    } else if j + |sep| <= |s| {
      // a match here would straddle the end of `p`: its last |sep| - d
      // characters would be the first |sep| - d of the separator itself
      var d := |p| - j;
      assert s[j..j + |sep|][d..] == s[|p|..|p| + |sep| - d] == sep[..|sep| - d];
      assert sep[d..] != sep[..|sep| - d];
    }
  }

  /** The converse round trip: splitting pieces that were joined with an
      unbordered separator, none of them containing it, gives the pieces
      back. */
  lemma {:induction false} SplitJoin(parts: seq<string>, sep: string)
    requires |sep| > 0 && Unbordered(sep) && |parts| >= 1
    requires forall p, j :: p in parts ==> !OccursAt(p, sep, j)
    ensures Split(Join(parts, sep), sep) == parts
  {
    var s := Join(parts, sep);
    if |parts| == 1 {
      assert FindFrom(s, sep, 0).None?;
    } else {
      var p := parts[0];
      var rest := Join(parts[1..], sep);
      assert s == p + sep + rest;
      assert s[|p|..|p| + |sep|] == sep;
      assert OccursAt(s, sep, |p|);
      forall j | 0 <= j < |p|
        ensures !OccursAt(s, sep, j)
      {
        NoOccurrenceInsideFirstPiece(p, sep, rest, j);
      }
      assert FindFrom(s, sep, 0) == Some(|p|);
      assert s[..|p|] == p;
      assert s[|p| + |sep|..] == rest;
      SplitJoin(parts[1..], sep);
    }
  }

  /** For a one-character separator, `FindFrom` finds that character's
      first position. */
  lemma FindCharIsFirstIndex(s: string, c: char)
    ensures FindFrom(s, [c], 0).None? <==> c !in s
    ensures forall i :: 0 <= i < |s| && s[i] == c && c !in s[..i] ==> FindFrom(s, [c], 0) == Some(i)
  {
    assert forall j :: OccursAt(s, [c], j) <==> 0 <= j < |s| && s[j] == c by {
      forall j | 0 <= j < |s|
        ensures OccursAt(s, [c], j) <==> s[j] == c
      {
        assert s[j..j + 1] == [s[j]];
      }
    }
    forall i | 0 <= i < |s| && s[i] == c && c !in s[..i]
      ensures FindFrom(s, [c], 0) == Some(i)
    {
      assert OccursAt(s, [c], i);
    }
  }
}
