/**
 The Claude source: one `Parse` call, from cursor to cursor.

 The file, the JSON decoders and the session-end markers found so far are inputs; what Go's map
 iteration picked is in `Choices`.
 */
module ClaudeSource {
  import opened Wrappers
  import opened Session
  import opened Reader
  import opened Cursors
  import opened Claude
  import Decimal
  import Collections

  /******* Specification *******/

  datatype Marker = Marker(reason: string, endedAt: Time)

  type Markers = map<string, Marker>

  datatype Input = Input(json: Json, decode: Decode, file: Bytes)

  datatype Choices = Choices(lookups: seq<Lookup>, links: Lookup, order: seq<string>)

  // A corrupt cursor starts over.
  function CursorOf(json: Json, c: Cursor): ClaudeCursor {
    match DecodeClaude(json, c)
    case None => ClaudeCursor(0, map[])
    case Some(cc) => cc
  }

  // The lines as records, each with the lookup used on it.
  function Records(decode: Decode, lines: seq<Bytes>, lookups: seq<Lookup>): (r: seq<Line>)
    ensures |r| == |lines|
  {
    seq(|lines|, i requires 0 <= i < |lines| =>
      Line(RecordOf(decode, lines[i]), if i < |lookups| then lookups[i] else map[]))
  }

  function StateOf(s: Subagent): SubagentState {
    SubagentState(s.id, s.parent, s.slug, s.activity, s.currentTool, s.firstTime, s.lastTime, s.model,
                  s.contextTokens, s.outputTokens, s.msgCount, s.toolCalls, s.completedAt)
  }

  function StatesOf(subs: map<string, Subagent>, order: seq<string>): seq<SubagentState> {
    if order == [] then [] else
      var id := order[|order| - 1];
      StatesOf(subs, order[..|order| - 1]) + (if id in subs then [StateOf(subs[id])] else [])
  }

  function EndUpdate(id: string, m: Marker): Update {
    NO_UPDATE.(info := NO_UPDATE.info.(sessionID := id, terminal := true, endReason := m.reason, endedAt := m.endedAt))
  }

  function SessionIDOf(b: Batch, h: SessionHandle): string {
    if b.meta.sessionID == "" then h.id else b.meta.sessionID
  }

  function InfoOf(b: Batch, id: string): UpdateInfo {
    UpdateInfo(id, b.meta.slug, b.meta.activity, b.meta.model, b.meta.contextTokens, b.meta.outputTokens, 0, false,
               b.counts.msgs, b.counts.tools, b.counts.compactions, b.meta.currentTool, b.meta.cwd, b.meta.branch,
               b.meta.startedAt, b.meta.lastActivityAt, false, "", ZERO_TIME)
  }

  function Ended(u: UpdateInfo, m: Marker): UpdateInfo {
    u.(terminal := true, endReason := m.reason, endedAt := m.endedAt)
  }

  // The update of a batch with data.
  function DataUpdate(b: Batch, id: string, order: seq<string>, markers: Markers): Update {
    var info := InfoOf(b, id);
    SourceUpdate(if id in markers then Ended(info, markers[id]) else info, StatesOf(b.subs, order))
  }

  // What a marker alone makes of the session, if there is one.
  function MarkerOutcome(id: string, markers: Markers,
                          without: Cursor, with: Cursor): ParseOutcome<seq<SubagentState>> {
    if id in markers then Parsed(EndUpdate(id, markers[id]), with) else Parsed(NO_UPDATE, without)
  }

  function BatchOf(inp: Input, ch: Choices, cc: ClaudeCursor, lines: seq<Bytes>): Batch {
    ParseBatch(cc.parents, Records(inp.decode, lines, ch.lookups))
  }

  function ParseSpec(inp: Input, ch: Choices, markers: Markers, h: SessionHandle,
                   c: Cursor): ParseOutcome<seq<SubagentState>> {
    var cc := CursorOf(inp.json, c);
    match ReadSpec(inp.file, cc.offset, DEFAULT_OPTIONS)
    case Read(lines, next) =>
      assert Decimal.InRange(next) by { NextInRange(inp.file, cc.offset); }
      if lines == [] then
        MarkerOutcome(h.id, markers, c, EncodeClaude(inp.json, ClaudeCursor(next, cc.parents)))
      else
        var b := BatchOf(inp, ch, cc, lines);
        var c' := EncodeClaude(inp.json, ClaudeCursor(next, cc.parents + ch.links));
        if !b.hasData then MarkerOutcome(h.id, markers, c', c')
        else Parsed(DataUpdate(b, SessionIDOf(b, h), ch.order, markers), c')
    case _ => ParseFailed
  }

  // The marker a call uses up.
  function Consumed(inp: Input, ch: Choices, h: SessionHandle, c: Cursor): set<string> {
    var cc := CursorOf(inp.json, c);
    match ReadSpec(inp.file, cc.offset, DEFAULT_OPTIONS)
    case Read(lines, _) =>
      var b := BatchOf(inp, ch, cc, lines);
      if lines == [] || !b.hasData then {h.id} else {SessionIDOf(b, h)}
    case _ => {}
  }

  // The choices are ones Go's map iteration can make.
  ghost predicate ChoicesOk(inp: Input, ch: Choices, c: Cursor) {
    var cc := CursorOf(inp.json, c);
    match ReadSpec(inp.file, cc.offset, DEFAULT_OPTIONS)
    case Read(lines, _) =>
      var b := BatchOf(inp, ch, cc, lines);
      && BatchOk(cc.parents, Records(inp.decode, lines, ch.lookups))
      && LookupOk(b.subs, map[], ch.links)
      && Collections.Visits(ch.order, b.subs.Keys)
    case _ => true
  }

  // A call that names a session leaves the cursor where its read ended.
  lemma CursorAfter(inp: Input, ch: Choices, markers: Markers, h: SessionHandle, c: Cursor)
    requires Lawful(inp.json)
    ensures var r, read := ParseSpec(inp, ch, markers, h, c),
            ReadSpec(inp.file, CursorOf(inp.json, c).offset, DEFAULT_OPTIONS);
            r.Parsed? && r.update.info.sessionID != "" ==>
              read.Read? && CursorOf(inp.json, r.cursor).offset == read.nextOffset
  {
    var cc := CursorOf(inp.json, c);
    var read := ReadSpec(inp.file, cc.offset, DEFAULT_OPTIONS);
    if read.Read? {
      NextInRange(inp.file, cc.offset);
      ClaudeRoundTrip(inp.json, ClaudeCursor(read.nextOffset, cc.parents));
      ClaudeRoundTrip(inp.json, ClaudeCursor(read.nextOffset, cc.parents + ch.links));
    }
  }

  /******* The source *******/

  class Source {
    var pending: Markers

    constructor ()
      ensures pending == map[]
    {
      pending := map[];
    }

    method ConsumePendingTerminal(id: string) returns (m: Option<Marker>)
      modifies this
      ensures pending == old(pending) - {id}
      ensures m == if id in old(pending) then Some(old(pending)[id]) else None
    {
      if id in pending {
        m := Some(pending[id]);
        pending := pending - {id};
      } else {
        m := None;
      }
    }

    method Parse(inp: Input, h: SessionHandle, c: Cursor)
      returns (r: ParseOutcome<seq<SubagentState>>, ghost ch: Choices)
      modifies this
      ensures r == ParseSpec(inp, ch, old(pending), h, c) && ChoicesOk(inp, ch, c)
      ensures pending == old(pending) - Consumed(inp, ch, h, c)
    {
      ch := Choices([], map[], []);
      var cc := CursorOf(inp.json, c);
      var read := ReadLines(inp.file, cc.offset, DEFAULT_OPTIONS);
      if !read.Read? {
        return ParseFailed, ch;
      }
      NextInRange(inp.file, cc.offset);
      if |read.lines| == 0 {
        var m := ConsumePendingTerminal(h.id);
        if m.Some? {
          return Parsed(EndUpdate(h.id, m.value),
                        EncodeClaude(inp.json, ClaudeCursor(read.nextOffset, cc.parents))), ch;
        }
        return Parsed(NO_UPDATE, c), ch;
      }
      var result, parsed := ParseLinesWithParents(inp.decode, read.lines, cc.parents);
      var links := LinkParents(result.subagents);
      var states, order := BuildSubagentStates(result.subagents);
      ch := Choices(LookupsOf(parsed), links, order);
      RecordsOfParsed(inp.decode, read.lines, parsed);
      var next := EncodeClaude(inp.json, ClaudeCursor(read.nextOffset, cc.parents + links));
      if !result.hasData {
        var m := ConsumePendingTerminal(h.id);
        if m.Some? {
          return Parsed(EndUpdate(h.id, m.value), next), ch;
        }
        return Parsed(NO_UPDATE, next), ch;
      }
      var id := result.meta.sessionID;
      if id == "" {
        id := h.id;
      }
      var info := InfoOf(result.Value(), id);
      var m := ConsumePendingTerminal(id);
      if m.Some? {
        info := Ended(info, m.value);
      }
      return Parsed(SourceUpdate(info, states), next), ch;
    }
  }

  function LookupsOf(parsed: seq<Line>): (r: seq<Lookup>)
    ensures |r| == |parsed|
  {
    seq(|parsed|, i requires 0 <= i < |parsed| => parsed[i].lookup)
  }

  lemma RecordsOfParsed(decode: Decode, lines: seq<Bytes>, parsed: seq<Line>)
    requires |parsed| == |lines| && forall i :: 0 <= i < |lines| ==> parsed[i].rec == RecordOf(decode, lines[i])
    ensures Records(decode, lines, LookupsOf(parsed)) == parsed
  {
  }

  // Every subagent once, in some order.
  method BuildSubagentStates(subs: map<string, Subagent>) returns (out: seq<SubagentState>, ghost order: seq<string>)
    ensures out == StatesOf(subs, order) && Collections.Visits(order, subs.Keys)
    ensures |out| == |subs| && forall id :: id in subs ==> StateOf(subs[id]) in out
  {
    out, order := [], [];
    var todo := subs.Keys;
    while todo != {}
      invariant todo <= subs.Keys && Collections.Visits(order, subs.Keys - todo)
      invariant out == StatesOf(subs, order)
      invariant |out| == |subs| - |todo| && forall id :: id in subs.Keys - todo ==> StateOf(subs[id]) in out
      decreases todo
    {
      var id :| id in todo;
      todo := todo - {id};
      assert (order + [id])[..|order|] == order;
      order := order + [id];
      out := out + [StateOf(subs[id])];
    }
  }

  /******* What a call reports *******/

  function MessageWeight(decode: Decode): Bytes -> int {
    line => RecordMessages(RecordOf(decode, line))
  }

  function ToolWeight(decode: Decode): Bytes -> int {
    line => RecordTools(RecordOf(decode, line))
  }

  function CompactionWeight(decode: Decode): Bytes -> int {
    line => RecordCompactions(RecordOf(decode, line))
  }

  function RecordMessages(rec: Record): nat {
    if IsUserTurn(rec) || IsAssistantTurn(rec) then 1 else 0
  }

  function RecordTools(rec: Record): nat {
    if IsAssistantTurn(rec) then ToolUses(rec.message.value.content) else 0
  }

  function RecordCompactions(rec: Record): nat {
    if rec.Record? && rec.kind == "compaction" then 1 else 0
  }

  lemma RecordCounts(b: Batch, rec: Record, lookup: Lookup)
    ensures var b' := AfterRecord(b, rec, lookup);
            && b'.counts.msgs == b.counts.msgs + RecordMessages(rec)
            && b'.counts.tools == b.counts.tools + RecordTools(rec)
            && b'.counts.compactions == b.counts.compactions + RecordCompactions(rec)
            && b'.hasData == (b.hasData || RecordMessages(rec) > 0)
  {
  }

  // The deltas of a batch count its lines; without data there are no messages and no tools.
  lemma {:induction false} BatchCounts(decode: Decode, lines: seq<Bytes>, lookups: seq<Lookup>, known: Lookup)
    ensures var b := ParseBatch(known, Records(decode, lines, lookups));
            && b.counts.msgs == Sum(MessageWeight(decode), lines)
            && b.counts.tools == Sum(ToolWeight(decode), lines)
            && b.counts.compactions == Sum(CompactionWeight(decode), lines)
            && b.counts.msgs >= 0
            && (b.hasData <==> b.counts.msgs > 0)
            && (!b.hasData ==> b.counts.tools == 0)
    decreases |lines|
  {
    if lines == [] {
      assert Records(decode, lines, lookups) == [];
    } else {
      var n := |lines| - 1;
      var before := Records(decode, lines[..n], lookups);
      assert Records(decode, lines, lookups)[..n] == before;
      BatchCounts(decode, lines[..n], lookups, known);
      RecordCounts(ParseBatch(known, before), RecordOf(decode, lines[n]), Records(decode, lines, lookups)[n].lookup);
      SumLast(MessageWeight(decode), lines);
      SumLast(ToolWeight(decode), lines);
      SumLast(CompactionWeight(decode), lines);
    }
  }

  lemma SumLast(weigh: Bytes -> int, lines: seq<Bytes>)
    requires lines != []
    ensures Sum(weigh, lines) == Sum(weigh, lines[..|lines| - 1]) + weigh(lines[|lines| - 1])
  {
    var n := |lines| - 1;
    assert lines == lines[..n] + [lines[n]];
    SumConcat(weigh, lines[..n], [lines[n]]);
  }
}
