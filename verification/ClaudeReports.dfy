/**
 What an update of the Claude source says, told by the records of the lines it reads and by the session-end marker
 waiting for the session.
 */
module ClaudeReports {
  import opened Wrappers
  import opened Session
  import opened Reader
  import opened Logs
  import opened Claude
  import opened ClaudeSource
  import MonitorSpec
  import MonitorInvariants
  import MonitorEvents

  /******* Records *******/

  // A message of the user, and one of the assistant that carries a working directory.
  function UserMessage(rec: Record): Option<Message> {
    if rec.Record? && rec.kind == "user" && rec.message.Some? && rec.message.value.role == "user" then rec.message
    else None
  }

  function AssistantMessage(rec: Record): Option<Message> {
    if rec.Record? && rec.kind == "assistant" && rec.cwd != ""
       && rec.message.Some? && rec.message.value.role == "assistant"
    then rec.message else None
  }

  function SessionIDIn(rec: Record): Option<string> {
    if rec.Record? then NotEmpty(rec.sessionID) else None
  }

  function CwdIn(rec: Record): Option<string> {
    if rec.Record? then NotEmpty(rec.cwd) else None
  }

  function BranchIn(rec: Record): Option<string> {
    if rec.Record? then NotEmpty(rec.gitBranch) else None
  }

  // Progress carries the slugs of subagents.
  function SlugIn(rec: Record): Option<string> {
    if rec.Record? && rec.kind != "progress" then NotEmpty(rec.slug) else None
  }

  function TimeIn(rec: Record): Option<Time> {
    if rec.Record? then rec.timestamp else None
  }

  function StartIn(rec: Record): Option<Time> {
    if rec.Record? && rec.timestamp != Some(0) then rec.timestamp else None
  }

  function ModelIn(rec: Record): Option<string> {
    match AssistantMessage(rec)
    case None => None
    case Some(msg) => NotEmpty(msg.model)
  }

  function UsageIn(rec: Record): Option<TokenUsage> {
    match AssistantMessage(rec)
    case None => None
    case Some(msg) => msg.usage
  }

  // The name of the last tool used.
  function ToolOf(content: seq<Block>): Option<string> {
    if content == [] then None else
      var n := |content| - 1;
      if content[n].kind == "tool_use" then Some(content[n].name) else ToolOf(content[..n])
  }

  function ToolIn(rec: Record): Option<string> {
    match AssistantMessage(rec)
    case None => None
    case Some(msg) => ToolOf(msg.content)
  }

  // The user speaking or a tool being used is work; the end of a turn is waiting.
  function ActivityIn(rec: Record): Option<Activity> {
    if UserMessage(rec).Some? then Some("working")
    else match AssistantMessage(rec)
         case None => None
         case Some(msg) =>
           if msg.stopReason == "end_turn" then Some("waiting")
           else if msg.stopReason == "tool_use" then Some("working")
           else None
  }

  // What some records give: of each field the last value or, for slug and start, the first.
  datatype Given = Given(
    sessionID: Option<string>, cwd: Option<string>, branch: Option<string>, slug: Option<string>,
    startedAt: Option<Time>, lastActivityAt: Option<Time>, model: Option<string>, currentTool: Option<string>,
    activity: Option<Activity>, usage: Option<TokenUsage>)

  function GivenBy(recs: seq<Record>): Given {
    Given(LastOf(recs, SessionIDIn), LastOf(recs, CwdIn), LastOf(recs, BranchIn), FirstOf(recs, SlugIn),
          FirstOf(recs, StartIn), LastOf(recs, TimeIn), LastOf(recs, ModelIn), LastOf(recs, ToolIn),
          LastOf(recs, ActivityIn), LastOf(recs, UsageIn))
  }

  // The session as given, empty where nothing is given and idle by default.
  ghost predicate MetaTold(m: Meta, g: Given) {
    && m.sessionID == Or(g.sessionID, "") && m.cwd == Or(g.cwd, "") && m.branch == Or(g.branch, "")
    && m.slug == Or(g.slug, "") && m.startedAt == Or(g.startedAt, 0) && m.lastActivityAt == Or(g.lastActivityAt, 0)
    && m.model == Or(g.model, "") && m.currentTool == Or(g.currentTool, "") && m.activity == Or(g.activity, "idle")
    && TokensTold(m, g.usage)
    && g.slug != Some("") && g.startedAt != Some(0) && g.sessionID != Some("")
  }

  // Context is everything read, cached or not, by the last message that says.
  predicate TokensTold(m: Meta, usage: Option<TokenUsage>) {
    match usage
    case None => m.contextTokens == 0 && m.outputTokens == 0
    case Some(u) => m.contextTokens == u.input + u.cacheRead + u.cacheCreation && m.outputTokens == u.output
  }

  lemma {:induction false} ToolIsLast(tool: string, content: seq<Block>)
    ensures LastTool(tool, content) == Or(ToolOf(content), tool)
  {
    if content != [] {
      ToolIsLast(tool, content[..|content| - 1]);
    }
  }

  // Tools are counted block by block.
  lemma {:induction false} ToolUsesCount(content: seq<Block>)
    ensures ToolUses(content) == |set i | 0 <= i < |content| && content[i].kind == "tool_use"|
  {
    if content != [] {
      var n := |content| - 1;
      ToolUsesCount(content[..n]);
      var uses := set i | 0 <= i < n && content[..n][i].kind == "tool_use";
      assert (set i | 0 <= i < |content| && content[i].kind == "tool_use")
          == uses + if content[n].kind == "tool_use" then {n} else {};
    }
  }

  function RecsOf(lines: seq<Line>): (r: seq<Record>)
    ensures |r| == |lines|
  {
    seq(|lines|, i requires 0 <= i < |lines| => lines[i].rec)
  }

  // One record more.
  function GivenNext(g: Given, rec: Record): Given {
    Given(Later(g.sessionID, SessionIDIn(rec)), Later(g.cwd, CwdIn(rec)), Later(g.branch, BranchIn(rec)),
          Later(SlugIn(rec), g.slug), Later(StartIn(rec), g.startedAt), Later(g.lastActivityAt, TimeIn(rec)),
          Later(g.model, ModelIn(rec)), Later(g.currentTool, ToolIn(rec)), Later(g.activity, ActivityIn(rec)),
          Later(g.usage, UsageIn(rec)))
  }

  lemma GivenIs(recs: seq<Record>)
    requires recs != []
    ensures GivenBy(recs) == GivenNext(GivenBy(recs[..|recs| - 1]), recs[|recs| - 1])
  {
    LastOfNext(recs, SessionIDIn);
    LastOfNext(recs, CwdIn);
    LastOfNext(recs, BranchIn);
    LastOfNext(recs, SlugIn);
    LastOfNext(recs, StartIn);
    LastOfNext(recs, TimeIn);
    LastOfNext(recs, ModelIn);
    LastOfNext(recs, ToolIn);
    LastOfNext(recs, ActivityIn);
    LastOfNext(recs, UsageIn);
  }

  // What any record may give, and what a message gives.
  lemma NotedTold(m: Meta, g: Given, rec: Record)
    requires rec.Record? && MetaTold(m, g)
    ensures var g' := GivenNext(g, rec);
            MetaTold(Noted(m, rec), g'.(model := g.model, currentTool := g.currentTool, activity := g.activity,
                                        usage := g.usage))
  {
  }

  lemma AssistantTold(m: Meta, g: Given, rec: Record)
    requires AssistantMessage(rec).Some? && MetaTold(m, g)
    ensures MetaTold(AssistantMeta(m, rec.message.value),
                     g.(model := Later(g.model, ModelIn(rec)), currentTool := Later(g.currentTool, ToolIn(rec)),
                        activity := Later(g.activity, ActivityIn(rec)), usage := Later(g.usage, UsageIn(rec))))
  {
    ToolIsLast(m.currentTool, rec.message.value.content);
  }

  lemma RecordTold(b: Batch, g: Given, rec: Record, lookup: Lookup)
    requires MetaTold(b.meta, g)
    ensures MetaTold(AfterRecord(b, rec, lookup).meta, GivenNext(g, rec))
  {
    if rec.Record? {
      NotedTold(b.meta, g, rec);
      var g' := GivenNext(g, rec).(model := g.model, currentTool := g.currentTool, activity := g.activity,
                                   usage := g.usage);
      if AssistantMessage(rec).Some? {
        AssistantTold(Noted(b.meta, rec), g', rec);
      }
    }
  }

  lemma {:induction false} BatchTold(known: Lookup, lines: seq<Line>)
    ensures MetaTold(ParseBatch(known, lines).meta, GivenBy(RecsOf(lines)))
  {
    if lines == [] {
      assert RecsOf(lines) == [];
    } else {
      var n := |lines| - 1;
      BatchTold(known, lines[..n]);
      assert RecsOf(lines)[..n] == RecsOf(lines[..n]);
      RecordTold(ParseBatch(known, lines[..n]), GivenBy(RecsOf(lines[..n])), lines[n].rec, lines[n].lookup);
      GivenIs(RecsOf(lines));
    }
  }

  /******* Updates *******/

  // The records of the lines a call reads.
  function NewRecords(inp: Input, c: Cursor): seq<Record> {
    match ReadSpec(inp.file, CursorOf(inp.json, c).offset, DEFAULT_OPTIONS)
    case Read(lines, _) => seq(|lines|, i requires 0 <= i < |lines| => RecordOf(inp.decode, lines[i]))
    case _ => []
  }

  ghost predicate HasTurn(recs: seq<Record>) {
    exists rec :: rec in recs && (UserMessage(rec).Some? || AssistantMessage(rec).Some?)
  }

  // The session a call reports on: the one its records name, if there is a turn among them, else the handle's.
  ghost function ReportsOn(recs: seq<Record>, h: SessionHandle): string {
    if HasTurn(recs) then Or(LastOf(recs, SessionIDIn), h.id) else h.id
  }

  lemma TurnNext(recs: seq<Record>)
    requires recs != []
    ensures var rec := recs[|recs| - 1];
            HasTurn(recs) <==>
            HasTurn(recs[..|recs| - 1]) || UserMessage(rec).Some? || AssistantMessage(rec).Some?
  {
    var n := |recs| - 1;
    assert recs == recs[..n] + [recs[n]];
  }

  lemma RecordIsTurn(b: Batch, rec: Record, lookup: Lookup)
    ensures AfterRecord(b, rec, lookup).hasData
       <==> b.hasData || UserMessage(rec).Some? || AssistantMessage(rec).Some?
  {
  }

  lemma {:induction false} DataIsTurn(known: Lookup, lines: seq<Line>)
    ensures ParseBatch(known, lines).hasData <==> HasTurn(RecsOf(lines))
  {
    if lines == [] {
      assert RecsOf(lines) == [];
    } else {
      var n := |lines| - 1;
      DataIsTurn(known, lines[..n]);
      assert RecsOf(lines)[..n] == RecsOf(lines[..n]);
      RecordIsTurn(ParseBatch(known, lines[..n]), lines[n].rec, lines[n].lookup);
      TurnNext(RecsOf(lines));
    }
  }

  // The batch of a call, in terms of its records.
  lemma BatchIsTold(inp: Input, ch: Choices, h: SessionHandle, c: Cursor, lines: seq<Bytes>, next: int)
    requires ReadSpec(inp.file, CursorOf(inp.json, c).offset, DEFAULT_OPTIONS) == Read(lines, next)
    ensures var b, recs := BatchOf(inp, ch, CursorOf(inp.json, c), lines), NewRecords(inp, c);
            && (b.hasData <==> HasTurn(recs)) && MetaTold(b.meta, GivenBy(recs))
            && (lines == [] ==> !b.hasData)
            && ReportsOn(recs, h) == if b.hasData then SessionIDOf(b, h) else h.id
  {
    var recs, parsed := NewRecords(inp, c), Records(inp.decode, lines, ch.lookups);
    assert RecsOf(parsed) == recs;
    DataIsTurn(CursorOf(inp.json, c).parents, parsed);
    BatchTold(CursorOf(inp.json, c).parents, parsed);
    assert lines == [] ==> parsed == [];
  }

  // The fields of an update as the records give them.
  ghost predicate InfoTold(u: UpdateInfo, g: Given) {
    && u.workingDir == Or(g.cwd, "") && u.branch == Or(g.branch, "") && u.slug == Or(g.slug, "")
    && u.startedAt == Or(g.startedAt, 0) && u.lastActivityAt == Or(g.lastActivityAt, 0)
    && u.model == Or(g.model, "") && u.currentTool == Or(g.currentTool, "") && u.activity == Or(g.activity, "idle")
    && u.maxContextTokens == 0 && !u.tokenEstimated
    && match g.usage
       case None => u.contextTokens == 0 && u.outputTokens == 0
       case Some(t) => u.contextTokens == t.input + t.cacheRead + t.cacheCreation && u.outputTokens == t.output
  }

  lemma DataUpdateTold(b: Batch, id: string, order: seq<string>, markers: Markers, g: Given)
    requires MetaTold(b.meta, g)
    ensures InfoTold(DataUpdate(b, id, order, markers).info, g)
  {
  }

  // With a turn among its records, a call reports what they give.  Without one it reports nothing but the end of the
  // session, if a marker says so.
  lemma UpdateTells(inp: Input, ch: Choices, markers: Markers, h: SessionHandle, c: Cursor)
    requires ParseSpec(inp, ch, markers, h, c).Parsed?
    ensures var r, recs := ParseSpec(inp, ch, markers, h, c), NewRecords(inp, c);
            if HasTurn(recs) then InfoTold(r.update.info, GivenBy(recs))
            else r.update.subagents == []
                 && r.update.info.(sessionID := "", terminal := false, endReason := "", endedAt := 0) == NO_UPDATE.info
  {
    var cc, recs := CursorOf(inp.json, c), NewRecords(inp, c);
    var read := ReadSpec(inp.file, cc.offset, DEFAULT_OPTIONS);
    BatchIsTold(inp, ch, h, c, read.lines, read.nextOffset);
    if HasTurn(recs) {
      var b := BatchOf(inp, ch, cc, read.lines);
      DataUpdateTold(b, SessionIDOf(b, h), ch.order, markers, GivenBy(recs));
    }
  }

  // A call fails exactly when the file cannot be read from the offset in its cursor; where there is nothing to report,
  // the cursor stays.
  lemma ParsesIff(inp: Input, ch: Choices, markers: Markers, h: SessionHandle, c: Cursor)
    ensures var r := ParseSpec(inp, ch, markers, h, c);
            var read := ReadSpec(inp.file, CursorOf(inp.json, c).offset, DEFAULT_OPTIONS);
            && (r.Parsed? <==> read.Read?)
            && (r.Parsed? && read.lines == [] && h.id !in markers ==> r.cursor == c && r.update == NO_UPDATE)
  {
  }

  /******* Session-end markers *******/

  // A call that succeeds uses up the marker waiting for the session it reports on, and no other; its update then names
  // that session as over, with the reason and the time of the marker, whatever lines were read.  Without a marker it
  // says nothing of an end, and names a session if and only if there is a turn.
  lemma MarkerEnds(inp: Input, ch: Choices, markers: Markers, h: SessionHandle, c: Cursor)
    ensures var r := ParseSpec(inp, ch, markers, h, c);
            var id := ReportsOn(NewRecords(inp, c), h);
            && (r.ParseFailed? ==> Consumed(inp, ch, h, c) == {})
            && (r.Parsed? ==>
                  && Consumed(inp, ch, h, c) == {id}
                  && var u := r.update.info;
                     if id in markers then
                       && u.sessionID == id && u.terminal
                       && u.endReason == markers[id].reason && u.endedAt == markers[id].endedAt
                     else
                       && !u.terminal && u.endReason == "" && u.endedAt == 0
                       && u.sessionID == if HasTurn(NewRecords(inp, c)) then id else "")
  {
    var read := ReadSpec(inp.file, CursorOf(inp.json, c).offset, DEFAULT_OPTIONS);
    if read.Read? {
      BatchIsTold(inp, ch, h, c, read.lines, read.nextOffset);
    }
  }

  // So an active session of the monitor whose parse finds a marker is terminal after that step, completed when the
  // marker says or, if it does not say, now; and the event of the end carries the marker's reason.
  lemma MarkerEndsSession(cfg: MonitorSpec.Config, w: MonitorSpec.World, op: MonitorSpec.Op, inp: Input, ch: Choices,
                          markers: Markers)
    requires MonitorInvariants.Inv(w.state) && op.ParseHandle?
    requires var c := MonitorSpec.CursorAt(w.state, MonitorSpec.CursorKey(op.source, op.handle.id));
             var r := ParseSpec(inp, ch, markers, op.handle, c);
             op.parse(c) == r && r.Parsed? && ReportsOn(NewRecords(inp, c), op.handle) in markers
             && ReportsOn(NewRecords(inp, c), op.handle) != ""
    requires MonitorInvariants.PhaseOf(w.state, op.handle.id) == MonitorInvariants.Live
    ensures var c := MonitorSpec.CursorAt(w.state, MonitorSpec.CursorKey(op.source, op.handle.id));
            var marker := markers[ReportsOn(NewRecords(inp, c), op.handle)];
            var w', id := MonitorSpec.Step(cfg, w, op), op.handle.id;
            && id in w'.state.store && w'.state.store[id].info.lifecycle == Terminal
            && w'.state.store[id].completedAt == Some(if marker.endedAt != 0 then marker.endedAt else op.now)
            && |w'.out.lifecycles| == |w.out.lifecycles| + 1
            && w'.out.lifecycles[|w.out.lifecycles|].kind == EventTerminal
            && w'.out.lifecycles[|w.out.lifecycles|].reason == marker.reason
  {
    var c := MonitorSpec.CursorAt(w.state, MonitorSpec.CursorKey(op.source, op.handle.id));
    MarkerEnds(inp, ch, markers, op.handle, c);
    MonitorEvents.UpdateEnds(cfg, w, op, op.handle.id);
    MonitorEvents.UpdateEvent(cfg, w, op, op.handle.id);
  }
}
