/**
 A Claude session followed through its cursor: the file grows, a call parses what is new, and the
 cursor is kept only when the update names a session.
 */
module ClaudeFollow {
  import opened Session
  import opened Reader
  import opened Cursors
  import opened Claude
  import opened ClaudeCompletion
  import opened ClaudeSource
  import Decimal

  // The file grows by `more`, then it is parsed once, or the call fails for a reason of its own.
  datatype Call =
    | Call(more: Bytes, h: SessionHandle, ch: Choices, markers: Markers)
    | Failed(more: Bytes)

  // `parts` are what was read by the calls whose cursors were kept.
  datatype Followed = Followed(file: Bytes, cursor: Cursor, parts: seq<Part>)

  // The part one call reads, if there are new lines.
  function PartOf(inp: Input, ch: Choices, c: Cursor): seq<Part> {
    match ReadSpec(inp.file, CursorOf(inp.json, c).offset, DEFAULT_OPTIONS)
    case Read(lines, _) => if lines == [] then [] else [Part(Records(inp.decode, lines, ch.lookups), ch.links)]
    case _ => []
  }

  function TakeCall(json: Json, decode: Decode, f: Followed, call: Call): Followed {
    match call
    case Failed(more) => f.(file := f.file + more)
    case Call(more, h, ch, markers) =>
      var inp := Input(json, decode, f.file + more);
      match ParseSpec(inp, ch, markers, h, f.cursor)
      case ParseFailed => Followed(inp.file, f.cursor, f.parts)
      case Parsed(u, c) =>
        if u.info.sessionID == "" then Followed(inp.file, f.cursor, f.parts)
        else Followed(inp.file, c, f.parts + PartOf(inp, ch, f.cursor))
  }

  function Follow(json: Json, decode: Decode, calls: seq<Call>): Followed {
    if calls == [] then Followed([], "", []) else
      TakeCall(json, decode, Follow(json, decode, calls[..|calls| - 1]), calls[|calls| - 1])
  }

  ghost predicate CallsOk(json: Json, decode: Decode, calls: seq<Call>) {
    calls != [] ==>
      var f, last := Follow(json, decode, calls[..|calls| - 1]), calls[|calls| - 1];
      && CallsOk(json, decode, calls[..|calls| - 1])
      && (last.Call? ==> ChoicesOk(Input(json, decode, f.file + last.more), last.ch, f.cursor))
  }

  function RecordList(decode: Decode, lines: seq<Bytes>): (r: seq<Record>)
    ensures |r| == |lines|
  {
    seq(|lines|, i requires 0 <= i < |lines| => RecordOf(decode, lines[i]))
  }

  lemma {:induction false} RecordsOfRead(decode: Decode, lines: seq<Bytes>, lookups: seq<Lookup>)
    ensures RecordsOf(Records(decode, lines, lookups)) == RecordList(decode, lines)
    decreases |lines|
  {
    if lines == [] {
      assert Records(decode, lines, lookups) == [];
    } else {
      var n := |lines| - 1;
      assert Records(decode, lines, lookups)[..n] == Records(decode, lines[..n], lookups);
      RecordsOfRead(decode, lines[..n], lookups);
    }
  }

  function OffsetOf(json: Json, f: Followed): int {
    CursorOf(json, f.cursor).offset
  }

  // The cursor holds the end of a line and the parents known there, and the parts are the lines before it.
  ghost predicate InStep(json: Json, decode: Decode, f: Followed) {
    var cc := CursorOf(json, f.cursor);
    && Boundary(f.file, cc.offset)
    && cc.parents == KnownAfter(f.parts)
    && ReadsOk(f.parts)
    && AllRecords(f.parts) == RecordList(decode, Lines(f.file[..cc.offset]))
  }

  lemma CursorRoundTrip(json: Json, cc: ClaudeCursor)
    requires Lawful(json)
    ensures CursorOf(json, EncodeClaude(json, cc)) == cc
  {
    ClaudeRoundTrip(json, cc);
  }

  lemma PartsNext(parts: seq<Part>, p: Part)
    requires ReadsOk(parts) && BatchOk(KnownAfter(parts), p.lines)
    requires LookupOk(ParseBatch(KnownAfter(parts), p.lines).subs, map[], p.links)
    ensures ReadsOk(parts + [p])
    ensures KnownAfter(parts + [p]) == KnownAfter(parts) + p.links
    ensures AllRecords(parts + [p]) == AllRecords(parts) + RecordsOf(p.lines)
  {
    assert (parts + [p])[..|parts|] == parts;
  }

  lemma GrowthStaysInStep(json: Json, decode: Decode, f: Followed, more: Bytes)
    requires InStep(json, decode, f)
    ensures InStep(json, decode, Followed(f.file + more, f.cursor, f.parts))
  {
    BoundaryStays(f.file, more, CursorOf(json, f.cursor).offset);
  }

  lemma RecordListConcat(decode: Decode, a: seq<Bytes>, b: seq<Bytes>)
    ensures RecordList(decode, a + b) == RecordList(decode, a) + RecordList(decode, b)
  {
  }

  // New lines: the cursor moves behind them and the part is kept.
  lemma PartStaysInStep(json: Json, decode: Decode, f: Followed, ch: Choices, lines: seq<Bytes>, next: Decimal.Int64)
    requires Lawful(json) && InStep(json, decode, f) && ChoicesOk(Input(json, decode, f.file), ch, f.cursor)
    requires lines != [] && ReadSpec(f.file, CursorOf(json, f.cursor).offset, DEFAULT_OPTIONS) == Read(lines, next)
    ensures var c := EncodeClaude(json, ClaudeCursor(next, CursorOf(json, f.cursor).parents + ch.links));
            InStep(json, decode, Followed(f.file, c, f.parts + [Part(Records(decode, lines, ch.lookups), ch.links)]))
  {
    var cc := CursorOf(json, f.cursor);
    ReadAtBoundary(f.file, cc.offset, DEFAULT_OPTIONS);
    CursorRoundTrip(json, ClaudeCursor(next, cc.parents + ch.links));
    PartsNext(f.parts, Part(Records(decode, lines, ch.lookups), ch.links));
    RecordsOfRead(decode, lines, ch.lookups);
    RecordListConcat(decode, Lines(f.file[..cc.offset]), lines);
  }

  lemma CallStaysInStep(json: Json, decode: Decode, f: Followed, call: Call)
    requires Lawful(json) && InStep(json, decode, f)
    requires call.Call? ==> ChoicesOk(Input(json, decode, f.file + call.more), call.ch, f.cursor)
    ensures InStep(json, decode, TakeCall(json, decode, f, call))
  {
    GrowthStaysInStep(json, decode, f, call.more);
    var grown, cc := Followed(f.file + call.more, f.cursor, f.parts), CursorOf(json, f.cursor);
    var read := ReadSpec(grown.file, cc.offset, DEFAULT_OPTIONS);
    if call.Call? && read.Read? {
      NextInRange(grown.file, cc.offset);
      if read.lines == [] {
        ReadAtBoundary(grown.file, cc.offset, DEFAULT_OPTIONS);
        CursorRoundTrip(json, ClaudeCursor(read.nextOffset, cc.parents));
        assert f.parts + [] == f.parts;
      } else {
        PartStaysInStep(json, decode, grown, call.ch, read.lines, read.nextOffset);
      }
    }
  }

  lemma {:induction false} FollowStaysInStep(json: Json, decode: Decode, calls: seq<Call>)
    requires Lawful(json) && CallsOk(json, decode, calls)
    ensures InStep(json, decode, Follow(json, decode, calls))
  {
    if calls == [] {
      assert Follow(json, decode, calls) == Followed([], "", []);
      assert Lines([]) == [];
    } else {
      var n := |calls| - 1;
      FollowStaysInStep(json, decode, calls[..n]);
      CallStaysInStep(json, decode, Follow(json, decode, calls[..n]), calls[n]);
    }
  }

  // However the file grew between calls and whichever of them failed, the subagents the kept calls completed are
  // exactly those whose tool use returned, after they had reported, in the part of the file up to the cursor.
  lemma FollowedCompletions(json: Json, decode: Decode, calls: seq<Call>, t: string)
    requires Lawful(json) && CallsOk(json, decode, calls)
    ensures var f := Follow(json, decode, calls);
            && Boundary(f.file, OffsetOf(json, f))
            && var records := RecordList(decode, Lines(f.file[..OffsetOf(json, f)]));
               Paired(records) ==> (t in Completed(f.parts) <==> Finished(records, t))
  {
    FollowStaysInStep(json, decode, calls);
    var f := Follow(json, decode, calls);
    if Paired(AllRecords(f.parts)) {
      CompletionIsFinished(f.parts, t);
    }
  }
}
