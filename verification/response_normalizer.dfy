/** Turning a completed exchange into a `Response`: above all, parsing the
    raw response-header blob (src/browser.ts:118-125). */
module ResponseNormalizer {

  import opened Wrappers
  import opened Text

  /** A completed exchange: status, parsed headers, response text and the
      URL that was requested (after the query string was merged in). */
  datatype Response = Response(
    statusCode: int,
    headers: map<string, string>,
    body: string,
    url: string)

  const LineBreak: string := "\r\n"

  /** One line of the blob: `header.split(':')`; with more than one piece
      the name is the first piece lower-cased and the value the remaining
      pieces re-joined with ':' and trimmed. A line without a colon gives
      nothing. */
  function ParseLine(line: string): (entry: Option<(string, string)>)
    ensures entry.None? <==> ':' !in line
  {
    FindCharIsFirstIndex(line, ':');
    var h := Split(line, ":");
    if |h| > 1 then Some((ToLower(h[0]), Trim(Join(h[1..], ":")))) else None
  }

  /** Split-then-rejoin amounts to cutting the line at its first colon: the
      name is the lower-cased text before it and the value the trimmed text
      after it, later colons included. */
  lemma ParseLineAtFirstColon(line: string, i: nat)
    requires i < |line| && line[i] == ':' && ':' !in line[..i]
    ensures ParseLine(line) == Some((ToLower(line[..i]), Trim(line[i + 1..])))
  {
    FindCharIsFirstIndex(line, ':');
  }

  /** The entry a line produces names header `key`. */
  predicate Names(entry: Option<(string, string)>, key: string) {
    entry.Some? && entry.value.0 == key
  }

  /** The `forEach` over the parsed lines: each entry assigns its value to
      its name, so a later entry overwrites an earlier one. */
  function Collect(entries: seq<Option<(string, string)>>): map<string, string> {
    if |entries| == 0 then map[]
    else
      var m := Collect(entries[..|entries| - 1]);
      match entries[|entries| - 1]
      case None => m
      case Some((name, value)) => m[name := value]
  }

  /** Each line of the blob parsed on its own. */
  function ParseLines(lines: seq<string>): (entries: seq<Option<(string, string)>>)
    ensures |entries| == |lines|
    ensures forall i :: 0 <= i < |lines| ==> entries[i] == ParseLine(lines[i])
  {
    seq(|lines|, i requires 0 <= i < |lines| => ParseLine(lines[i]))
  }

  /** `xhr.getAllResponseHeaders()` split on CR LF, each line parsed and the
      entries collected. Every name in the result comes from a line of the
      blob, so it is free of upper-case ASCII letters and its value has
      nothing left to trim. */
  function ParseHeaders(blob: string): (m: map<string, string>)
    ensures forall k :: k in m ==> ToLower(k) == k
    ensures forall k :: k in m ==> Trim(m[k]) == m[k]
  {
    var lines := Split(blob, LineBreak);
    var entries := ParseLines(lines);
    forall k | k in Collect(entries)
      ensures ToLower(k) == k && Trim(Collect(entries)[k]) == Collect(entries)[k]
    {
      CollectedNameOccurs(entries, k);
      var i :| 0 <= i < |entries| && Names(entries[i], k);
      var last := LastNaming(entries, k, i);
      LastOccurrenceWins(entries, k, last);
      LowerIsFixed(k);
      ParsedValueTrimmed(lines[last]);
    }
    Collect(entries)
  }

  /** A parsed value is already trimmed. */
  lemma ParsedValueTrimmed(line: string)
    requires ParseLine(line).Some?
    ensures Trim(ParseLine(line).value.1) == ParseLine(line).value.1
  {
    var h := Split(line, ":");
    TrimIdempotent(Join(h[1..], ":"));
  }

  /** The last entry from index `i` on that names `key`. */
  lemma {:induction false} LastNaming(entries: seq<Option<(string, string)>>, key: string, i: nat) returns (last: nat)
    requires i < |entries| && Names(entries[i], key)
    ensures i <= last < |entries| && Names(entries[last], key)
    ensures forall j :: last < j < |entries| ==> !Names(entries[j], key)
    decreases |entries| - i
  {
    if exists j :: i < j < |entries| && Names(entries[j], key) {
      var j :| i < j < |entries| && Names(entries[j], key);
      last := LastNaming(entries, key, j);
    } else {
      last := i;
    }
  }

  /** A string without upper-case ASCII letters is its own lower-case. */
  lemma LowerIsFixed(s: string)
    requires forall i :: 0 <= i < |s| ==> !IsUpperAscii(s[i])
    ensures ToLower(s) == s
  {
  }

  /** The response handed to the caller: the transport's status and text,
      the requested URL, and the headers parsed from the raw blob. */
  function Normalize(status: int, blob: string, text: string, url: string): (r: Response)
    ensures r.statusCode == status && r.body == text && r.url == url
    ensures r.headers == ParseHeaders(blob)
    ensures forall k :: k in r.headers ==> ToLower(k) == k && Trim(r.headers[k]) == r.headers[k]
  {
    Response(status, ParseHeaders(blob), text, url)
  }

  /** Every collected name comes from some entry that names it. */
  lemma {:induction false} CollectedNameOccurs(entries: seq<Option<(string, string)>>, key: string)
    requires key in Collect(entries)
    ensures exists i :: 0 <= i < |entries| && Names(entries[i], key)
  {
    var last := |entries| - 1;
    if !Names(entries[last], key) {
      var init := entries[..last];
      CollectedNameOccurs(init, key);
      var i :| 0 <= i < |init| && Names(init[i], key);
      assert entries[i] == init[i];
    }
  }

  /** Every entry contributes its name. */
  lemma {:induction false} NamedEntryCollected(entries: seq<Option<(string, string)>>, key: string, i: nat)
    requires i < |entries| && Names(entries[i], key)
    ensures key in Collect(entries)
  {
    var last := |entries| - 1;
    if i < last {
      var init := entries[..last];
      assert init[i] == entries[i];
      NamedEntryCollected(init, key, i);
    }
  }

  /** The value kept for a name is the one of the last entry naming it. */
  lemma {:induction false} LastOccurrenceWins(entries: seq<Option<(string, string)>>, key: string, i: nat)
    requires i < |entries| && Names(entries[i], key)
    requires forall j :: i < j < |entries| ==> !Names(entries[j], key)
    ensures key in Collect(entries)
    ensures Collect(entries)[key] == entries[i].value.1
  {
    var last := |entries| - 1;
    if i < last {
      var init := entries[..last];
      assert !Names(entries[last], key);
      assert forall j :: i < j < |init| ==> !Names(init[j], key) by {
        forall j | i < j < |init|
          ensures !Names(init[j], key)
        {
          assert init[j] == entries[j];
        }
      }
      LastOccurrenceWins(init, key, i);
    }
  }

  /** A line without a colon leaves the headers collected so far alone. */
  lemma LineWithoutColonSkipped(lines: seq<string>, line: string)
    requires ':' !in line
    ensures Collect(ParseLines(lines + [line])) == Collect(ParseLines(lines))
  {
    var e := ParseLines(lines + [line]);
    assert e[|lines|] == ParseLine(line) == None;
    assert e[..|e| - 1] == ParseLines(lines);
  }

  /** Splitting lines joined with CR LF, none holding CR LF, gives the
      lines back. */
  lemma SplitJoinedLines(lines: seq<string>)
    requires |lines| >= 1
    requires forall l, j :: l in lines ==> !OccursAt(l, LineBreak, j)
    ensures Split(Join(lines, LineBreak), LineBreak) == lines
  {
    assert LineBreak[1..][0] != LineBreak[..1][0];
    assert Unbordered(LineBreak);
    SplitJoin(lines, LineBreak);
  }

  /** Parsing the lines of a blob joined with CR LF is parsing the lines
      one by one, for lines that hold no CR LF themselves; a lone CR may
      appear. Every blob is such a join, of its own `Split` pieces. */
  lemma ParseHeadersOfLines(lines: seq<string>)
    requires |lines| >= 1
    requires forall l, j :: l in lines ==> !OccursAt(l, LineBreak, j)
    ensures ParseHeaders(Join(lines, LineBreak)) == Collect(ParseLines(lines))
  {
    SplitJoinedLines(lines);
  }
}
