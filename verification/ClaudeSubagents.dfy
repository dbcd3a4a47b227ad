/**
 What a batch says of each subagent, told by the progress records and tool results that concern it.
 */
module ClaudeSubagents {
  import opened Wrappers
  import opened Session
  import opened Reader
  import opened Logs
  import opened Claude
  import opened ClaudeSource
  import opened ClaudeReports

  /******* What concerns a subagent *******/

  // A progress record of the subagent, or the return of the tool use that started it.
  datatype Entry = Progress(rec: Record) | Returned(parent: string, at: Time)

  // Progress of an agent concerns a subagent; other progress only if it names one by a slug that is not the
  // session's, or goes on about one already known.
  predicate Taken(b: Batch, rec: Record) {
    && rec.Record? && rec.kind == "progress" && rec.toolUseID != ""
    && ((rec.data.Data? && rec.data.header == Some("agent_progress"))
        || (if rec.slug == "" then rec.toolUseID in b.subs else rec.slug != b.meta.slug))
  }

  // The result in a block, if a lookup assigns it to the subagent.
  function ResultOf(block: Block, lookup: Lookup, at: Time, id: string): seq<Entry> {
    var parent := block.toolUseID;
    if block.kind == "tool_result" && parent != "" && parent in lookup && lookup[parent] == id
    then [Returned(parent, at)] else []
  }

  function Results(blocks: seq<Block>, lookup: Lookup, at: Time, id: string): seq<Entry> {
    if blocks == [] then [] else
      Results(blocks[..|blocks| - 1], lookup, at, id) + ResultOf(blocks[|blocks| - 1], lookup, at, id)
  }

  function EntriesOf(b: Batch, line: Line, id: string): seq<Entry> {
    if UserMessage(line.rec).Some? then
      Results(UserMessage(line.rec).value.content, line.lookup, Or(TimeIn(line.rec), b.meta.lastActivityAt), id)
    else if Taken(b, line.rec) && line.rec.toolUseID == id then [Progress(line.rec)]
    else []
  }

  function LogOf(known: Lookup, lines: seq<Line>, id: string): seq<Entry> {
    if lines == [] then [] else
      var n := |lines| - 1;
      LogOf(known, lines[..n], id) + EntriesOf(ParseBatch(known, lines[..n]), lines[n], id)
  }

  /******* What the entries say *******/

  // The message of the subagent in a progress record: who speaks and, for the assistant, what was said.
  function BodyOf(e: Entry): Option<ProgressBody> {
    if e.Progress? && e.rec.Record? && e.rec.data.Data? then e.rec.data.body else None
  }

  function SaidIn(e: Entry): Option<Message> {
    match BodyOf(e)
    case None => None
    case Some(body) => if body.kind == "assistant" then body.inner else None
  }

  function ParentIn(e: Entry): Option<string> {
    match e
    case Progress(rec) => if rec.Record? then Some(rec.parentToolUseID) else None
    case Returned(parent, _) => Some(parent)
  }

  function SlugIn(e: Entry): Option<string> {
    if e.Progress? && e.rec.Record? then NotEmpty(e.rec.slug) else None
  }

  function StartIn(e: Entry): Option<Time> {
    if e.Progress? && e.rec.Record? && e.rec.timestamp != Some(0) then e.rec.timestamp else None
  }

  function TimeOf(e: Entry): Option<Time> {
    if e.Progress? && e.rec.Record? then e.rec.timestamp else None
  }

  function ModelIn(e: Entry): Option<string> {
    match SaidIn(e) case None => None case Some(msg) => NotEmpty(msg.model)
  }

  function UsageIn(e: Entry): Option<TokenUsage> {
    match SaidIn(e) case None => None case Some(msg) => msg.usage
  }

  function ToolIn(e: Entry): Option<string> {
    match SaidIn(e) case None => None case Some(msg) => ToolOf(msg.content)
  }

  function ReturnIn(e: Entry): Option<Time> {
    match e case Progress(_) => None case Returned(_, at) => Some(at)
  }

  // Messages of either side, and tools used.
  function MessagesIn(e: Entry): nat {
    match BodyOf(e) case None => 0 case Some(body) => if body.kind in {"assistant", "user"} then 1 else 0
  }

  function ToolsIn(e: Entry): nat {
    match SaidIn(e) case None => 0 case Some(msg) => ToolUses(msg.content)
  }

  // Using a tool is work; a message without one leaves work going on and is waiting otherwise, as is a message of the
  // user; and a return is the end.
  function ActivityAfter(before: Activity, e: Entry): Activity {
    match e
    case Returned(_, _) => "terminal"
    case Progress(_) =>
      match BodyOf(e)
      case None => before
      case Some(body) =>
        if body.kind == "user" then "waiting"
        else if body.kind != "assistant" then before
        else if ToolsIn(e) > 0 || before == "working" then "working"
        else "waiting"
  }

  datatype Told = Told(
    parent: Option<string>, slug: Option<string>, startedAt: Option<Time>, lastAt: Option<Time>, model: Option<string>,
    usage: Option<TokenUsage>, tool: Option<string>, returnedAt: Option<Time>, msgs: nat, tools: nat,
    activity: Activity)

  function SumOf(log: seq<Entry>, count: Entry -> nat): nat {
    if log == [] then 0 else SumOf(log[..|log| - 1], count) + count(log[|log| - 1])
  }

  function ActivityOf(log: seq<Entry>): Activity {
    if log == [] then "working" else ActivityAfter(ActivityOf(log[..|log| - 1]), log[|log| - 1])
  }

  function ToldBy(log: seq<Entry>): Told {
    Told(FirstOf(log, ParentIn), FirstOf(log, SlugIn), FirstOf(log, StartIn), LastOf(log, TimeOf), LastOf(log, ModelIn),
         LastOf(log, UsageIn), LastOf(log, ToolIn), LastOf(log, ReturnIn), SumOf(log, MessagesIn), SumOf(log, ToolsIn),
         ActivityOf(log))
  }

  // The subagent as told, empty where nothing is said.
  ghost predicate IsTold(s: Subagent, id: string, t: Told) {
    && s.id == id && HeadTold(s, t) && MessagesTold(s, t)
    && (s.completed <==> t.returnedAt.Some?) && s.completedAt == Or(t.returnedAt, 0)
  }

  predicate HeadTold(s: Subagent, t: Told) {
    && t.parent.Some? && t.slug != Some("") && t.startedAt != Some(0)
    && s.parent == t.parent.value && s.slug == Or(t.slug, "")
    && s.firstTime == Or(t.startedAt, 0) && s.lastTime == Or(t.lastAt, 0)
  }

  predicate MessagesTold(s: Subagent, t: Told) {
    && s.model == Or(t.model, "") && s.currentTool == Or(t.tool, "")
    && s.msgCount == t.msgs && s.toolCalls == t.tools && s.activity == t.activity
    && match t.usage
       case None => s.contextTokens == 0 && s.outputTokens == 0
       case Some(u) => s.contextTokens == u.input + u.cacheRead + u.cacheCreation && s.outputTokens == u.output
  }

  /******* One entry more *******/

  function ToldNext(t: Told, e: Entry): Told {
    Told(Later(ParentIn(e), t.parent), Later(SlugIn(e), t.slug), Later(StartIn(e), t.startedAt),
         Later(t.lastAt, TimeOf(e)), Later(t.model, ModelIn(e)), Later(t.usage, UsageIn(e)), Later(t.tool, ToolIn(e)),
         Later(t.returnedAt, ReturnIn(e)), t.msgs + MessagesIn(e), t.tools + ToolsIn(e), ActivityAfter(t.activity, e))
  }

  lemma ToldIs(log: seq<Entry>)
    requires log != []
    ensures ToldBy(log) == ToldNext(ToldBy(log[..|log| - 1]), log[|log| - 1])
  {
    LastOfNext(log, ParentIn);
    LastOfNext(log, SlugIn);
    LastOfNext(log, StartIn);
    LastOfNext(log, TimeOf);
    LastOfNext(log, ModelIn);
    LastOfNext(log, UsageIn);
    LastOfNext(log, ToolIn);
    LastOfNext(log, ReturnIn);
  }

  lemma ToldPush(log: seq<Entry>, e: Entry)
    ensures ToldBy(log + [e]) == ToldNext(ToldBy(log), e)
  {
    assert (log + [e])[..|log|] == log;
    ToldIs(log + [e]);
  }

  lemma BodyKeepsHead(s: Subagent, body: ProgressBody)
    ensures var s' := WithBody(s, body);
            && s'.id == s.id && s'.parent == s.parent && s'.slug == s.slug && s'.firstTime == s.firstTime
            && s'.lastTime == s.lastTime && s'.completed == s.completed && s'.completedAt == s.completedAt
  {
  }

  lemma HeadNext(s: Subagent, t: Told, rec: Record)
    requires HeadTold(s, t) && rec.Record?
    ensures HeadTold(WithProgress(s, rec), ToldNext(t, Progress(rec)))
  {
    HeadAlone(s, t, rec);
    if BodyOf(Progress(rec)).Some? {
      BodyKeepsHead(WithHead(s, rec), rec.data.body.value);
    }
  }

  lemma HeadAlone(s: Subagent, t: Told, rec: Record)
    requires HeadTold(s, t) && rec.Record?
    ensures HeadTold(WithHead(s, rec), ToldNext(t, Progress(rec)))
  {
  }

  lemma MessageNext(s: Subagent, t: Told, msg: Message)
    requires MessagesTold(s, t)
    ensures MessagesTold(WithMessage(s, msg),
                         t.(model := Later(t.model, NotEmpty(msg.model)), tool := Later(t.tool, ToolOf(msg.content)),
                            usage := Later(t.usage, msg.usage), tools := t.tools + ToolUses(msg.content),
                            activity := if ToolUses(msg.content) > 0 then "working" else t.activity))
  {
    ToolIsLast(s.currentTool, msg.content);
  }

  lemma BodyNext(s: Subagent, t: Told, rec: Record)
    requires MessagesTold(s, t) && rec.Record? && BodyOf(Progress(rec)).Some?
    ensures MessagesTold(WithBody(s, rec.data.body.value), ToldNext(t, Progress(rec)))
  {
    var said := SaidIn(Progress(rec));
    if said.Some? {
      MessageNext(s.(msgCount := s.msgCount + 1), t.(msgs := t.msgs + 1), said.value);
    }
  }

  lemma ProgressTold(s: Subagent, id: string, t: Told, rec: Record)
    requires IsTold(s, id, t) && rec.Record?
    ensures IsTold(WithProgress(s, rec), id, ToldNext(t, Progress(rec)))
  {
    HeadNext(s, t, rec);
    MessagesNext(s, t, rec);
  }

  lemma MessagesNext(s: Subagent, t: Told, rec: Record)
    requires MessagesTold(s, t) && rec.Record?
    ensures MessagesTold(WithProgress(s, rec), ToldNext(t, Progress(rec)))
    ensures var s' := WithProgress(s, rec);
            s'.id == s.id && s'.completed == s.completed && s'.completedAt == s.completedAt
  {
    var stamped := WithHead(s, rec);
    if BodyOf(Progress(rec)).Some? {
      BodyKeepsHead(stamped, rec.data.body.value);
      BodyNext(stamped, t, rec);
    }
  }

  lemma {:induction false} ToolsAreUsed(content: seq<Block>)
    ensures ToolUses(content) > 0 <==> ToolOf(content).Some?
  {
    if content != [] {
      ToolsAreUsed(content[..|content| - 1]);
    }
  }

  lemma NewHeadTold(rec: Record)
    requires rec.Record?
    ensures HeadTold(WithHead(NewSubagent(rec), rec), ToldNext(ToldBy([]), Progress(rec)))
  {
  }

  // The record that starts a subagent.
  lemma NewTold(rec: Record)
    requires rec.Record?
    ensures IsTold(WithProgress(NewSubagent(rec), rec), rec.toolUseID, ToldBy([Progress(rec)]))
  {
    var none: seq<Entry> := [];
    assert none + [Progress(rec)] == [Progress(rec)];
    ToldPush(none, Progress(rec));
    NewHeadTold(rec);
    if BodyOf(Progress(rec)).Some? {
      BodyKeepsHead(WithHead(NewSubagent(rec), rec), rec.data.body.value);
    }
    MessagesNext(NewSubagent(rec), ToldBy(none), rec);
  }

  // A result completes a subagent, known or not.
  lemma ReturnTold(s: Subagent, id: string, t: Told, parent: string, at: Time)
    requires IsTold(s, id, t)
    ensures IsTold(s.(completed := true, activity := ACTIVITY_TERMINAL, completedAt := at), id,
                   ToldNext(t, Returned(parent, at)))
  {
  }

  lemma NewReturnTold(id: string, parent: string, at: Time)
    ensures IsTold(Subagent(id, parent, "", "", 0, 0, 0, 0, "", ACTIVITY_TERMINAL, ZERO_TIME, ZERO_TIME, true, at), id,
                   ToldBy([Returned(parent, at)]))
  {
    var none: seq<Entry> := [];
    assert none + [Returned(parent, at)] == [Returned(parent, at)];
    ToldPush(none, Returned(parent, at));
  }

  /******* A batch *******/

  // The subagent is known if and only if something concerns it, and is what that says.
  ghost predicate SubTold(subs: map<string, Subagent>, id: string, log: seq<Entry>) {
    && (id in subs <==> log != [])
    && (id in subs ==> IsTold(subs[id], id, ToldBy(log)))
  }

  lemma OtherBlock(subs: map<string, Subagent>, block: Block, lookup: Lookup, at: Time, id: string, log: seq<Entry>)
    requires SubTold(subs, id, log) && ResultOf(block, lookup, at, id) == []
    ensures SubTold(CompleteOne(subs, block, lookup, at), id, log)
  {
    var subs' := CompleteOne(subs, block, lookup, at);
    assert id in subs' <==> id in subs;
    assert id in subs ==> subs'[id] == subs[id];
  }

  lemma ThisBlock(subs: map<string, Subagent>, block: Block, lookup: Lookup, at: Time, id: string, log: seq<Entry>)
    requires SubTold(subs, id, log) && ResultOf(block, lookup, at, id) != []
    ensures SubTold(CompleteOne(subs, block, lookup, at), id, log + ResultOf(block, lookup, at, id))
  {
    var e := Returned(block.toolUseID, at);
    if id in subs {
      ReturnTold(subs[id], id, ToldBy(log), block.toolUseID, at);
      ToldPush(log, e);
    } else {
      NewReturnTold(id, block.toolUseID, at);
      assert log + [e] == [e];
    }
  }

  lemma BlockTold(subs: map<string, Subagent>, block: Block, lookup: Lookup, at: Time, id: string, log: seq<Entry>)
    requires SubTold(subs, id, log)
    ensures SubTold(CompleteOne(subs, block, lookup, at), id, log + ResultOf(block, lookup, at, id))
  {
    if ResultOf(block, lookup, at, id) == [] {
      OtherBlock(subs, block, lookup, at, id, log);
      assert log + [] == log;
    } else {
      ThisBlock(subs, block, lookup, at, id, log);
    }
  }

  lemma AssocLog(a: seq<Entry>, b: seq<Entry>, c: seq<Entry>)
    ensures (a + b) + c == a + (b + c)
  {
  }

  lemma BlocksNext(subs: map<string, Subagent>, blocks: seq<Block>, lookup: Lookup, at: Time, id: string)
    requires blocks != []
    ensures var n := |blocks| - 1;
            && Complete(subs, blocks, lookup, at)
               == CompleteOne(Complete(subs, blocks[..n], lookup, at), blocks[n], lookup, at)
            && Results(blocks, lookup, at, id)
               == Results(blocks[..n], lookup, at, id) + ResultOf(blocks[n], lookup, at, id)
  {
  }

  lemma {:induction false} BlocksTold(subs: map<string, Subagent>, blocks: seq<Block>, lookup: Lookup, at: Time,
                                      id: string, log: seq<Entry>)
    requires SubTold(subs, id, log)
    ensures SubTold(Complete(subs, blocks, lookup, at), id, log + Results(blocks, lookup, at, id))
  {
    if blocks == [] {
      assert log + [] == log;
    } else {
      var n := |blocks| - 1;
      var before, last := Results(blocks[..n], lookup, at, id), ResultOf(blocks[n], lookup, at, id);
      BlocksTold(subs, blocks[..n], lookup, at, id, log);
      BlockTold(Complete(subs, blocks[..n], lookup, at), blocks[n], lookup, at, id, log + before);
      BlocksNext(subs, blocks, lookup, at, id);
      AssocLog(log, before, last);
    }
  }

  // Taken progress is what the parser does not ignore.
  lemma TakenIs(b: Batch, rec: Record)
    requires rec.Record? && rec.kind == "progress"
    ensures Taken(b, rec) <==> !Ignored(b, rec)
  {
  }

  lemma TakenTold(b: Batch, rec: Record, id: string, log: seq<Entry>)
    requires SubTold(b.subs, id, log) && rec.Record? && rec.kind == "progress"
    ensures SubTold(AfterProgress(b, rec).subs, id,
                    log + if Taken(b, rec) && rec.toolUseID == id then [Progress(rec)] else [])
  {
    TakenIs(b, rec);
    if Taken(b, rec) && rec.toolUseID == id {
      if id in b.subs {
        ProgressTold(b.subs[id], id, ToldBy(log), rec);
        ToldPush(log, Progress(rec));
      } else {
        NewTold(rec);
        assert log + [Progress(rec)] == [Progress(rec)];
      }
    } else {
      assert log + [] == log;
    }
  }

  // What a record does to the subagents.
  lemma SubsAfter(b: Batch, rec: Record, lookup: Lookup)
    ensures AfterRecord(b, rec, lookup).subs
         == if UserMessage(rec).Some? then
              Complete(b.subs, UserMessage(rec).value.content, lookup, Or(TimeIn(rec), b.meta.lastActivityAt))
            else if rec.Record? && rec.kind == "progress" then AfterProgress(b.(meta := Noted(b.meta, rec)), rec).subs
            else b.subs
  {
  }

  lemma TakenNoted(b: Batch, rec: Record)
    requires rec.Record? && rec.kind == "progress"
    ensures Taken(b, rec) <==> Taken(b.(meta := Noted(b.meta, rec)), rec)
  {
  }

  lemma LineTold(b: Batch, line: Line, id: string, log: seq<Entry>)
    requires SubTold(b.subs, id, log)
    ensures SubTold(AfterRecord(b, line.rec, line.lookup).subs, id, log + EntriesOf(b, line, id))
  {
    var rec := line.rec;
    SubsAfter(b, rec, line.lookup);
    if UserMessage(rec).Some? {
      BlocksTold(b.subs, rec.message.value.content, line.lookup, Or(TimeIn(rec), b.meta.lastActivityAt), id, log);
    } else if rec.Record? && rec.kind == "progress" {
      TakenNoted(b, rec);
      TakenTold(b.(meta := Noted(b.meta, rec)), rec, id, log);
    } else {
      assert log + [] == log;
    }
  }

  // After a batch a subagent is known if and only if a record of the batch concerns it, and everything the batch says
  // of it is told by those records.
  lemma {:induction false} SubagentsTold(known: Lookup, lines: seq<Line>, id: string)
    ensures SubTold(ParseBatch(known, lines).subs, id, LogOf(known, lines, id))
  {
    if lines != [] {
      var n := |lines| - 1;
      SubagentsTold(known, lines[..n], id);
      LineTold(ParseBatch(known, lines[..n]), lines[n], id, LogOf(known, lines[..n], id));
    }
  }

  /******* The subagents of an update *******/

  predicate StateTold(x: SubagentState, t: Told) {
    && x.parentID == Or(t.parent, "") && x.slug == Or(t.slug, "") && x.activity == t.activity
    && x.currentTool == Or(t.tool, "") && x.model == Or(t.model, "")
    && x.startedAt == Or(t.startedAt, 0) && x.lastActivityAt == Or(t.lastAt, 0)
    && x.messageCount == t.msgs && x.toolCallCount == t.tools && x.completedAt == Or(t.returnedAt, 0)
    && match t.usage
       case None => x.contextTokens == 0 && x.outputTokens == 0
       case Some(u) => x.contextTokens == u.input + u.cacheRead + u.cacheCreation && x.outputTokens == u.output
  }

  lemma {:induction false} StatesAre(subs: map<string, Subagent>, order: seq<string>, x: SubagentState)
    ensures x in StatesOf(subs, order) <==> exists id :: id in order && id in subs && x == StateOf(subs[id])
  {
    if order != [] {
      var n := |order| - 1;
      StatesAre(subs, order[..n], x);
      assert forall id :: id in order <==> id in order[..n] || id == order[n];
    }
  }

  // The lines of a call and the parents it knows.
  function LinesOf(inp: Input, ch: Choices, c: Cursor): seq<Line> {
    match ReadSpec(inp.file, CursorOf(inp.json, c).offset, DEFAULT_OPTIONS)
    case Read(lines, _) => Records(inp.decode, lines, ch.lookups)
    case _ => []
  }

  // A call that reports a turn lists exactly the subagents its lines concern, each as those lines tell.
  lemma ListedAsTold(inp: Input, ch: Choices, markers: Markers, h: SessionHandle, c: Cursor, x: SubagentState)
    requires ParseSpec(inp, ch, markers, h, c).Parsed? && HasTurn(NewRecords(inp, c)) && ChoicesOk(inp, ch, c)
    requires x in ParseSpec(inp, ch, markers, h, c).update.subagents
    ensures var log := LogOf(CursorOf(inp.json, c).parents, LinesOf(inp, ch, c), x.id);
            log != [] && StateTold(x, ToldBy(log))
  {
    var cc := CursorOf(inp.json, c);
    var read := ReadSpec(inp.file, cc.offset, DEFAULT_OPTIONS);
    BatchIsTold(inp, ch, h, c, read.lines, read.nextOffset);
    var b := BatchOf(inp, ch, cc, read.lines);
    StatesAre(b.subs, ch.order, x);
    var id :| id in ch.order && id in b.subs && x == StateOf(b.subs[id]);
    SubagentsTold(cc.parents, LinesOf(inp, ch, c), id);
  }

  lemma ConcernedAreListed(inp: Input, ch: Choices, markers: Markers, h: SessionHandle, c: Cursor, id: string)
    requires ParseSpec(inp, ch, markers, h, c).Parsed? && HasTurn(NewRecords(inp, c)) && ChoicesOk(inp, ch, c)
    requires LogOf(CursorOf(inp.json, c).parents, LinesOf(inp, ch, c), id) != []
    ensures exists x :: x in ParseSpec(inp, ch, markers, h, c).update.subagents && x.id == id
  {
    var cc := CursorOf(inp.json, c);
    var read := ReadSpec(inp.file, cc.offset, DEFAULT_OPTIONS);
    BatchIsTold(inp, ch, h, c, read.lines, read.nextOffset);
    var b := BatchOf(inp, ch, cc, read.lines);
    SubagentsTold(cc.parents, LinesOf(inp, ch, c), id);
    StatesAre(b.subs, ch.order, StateOf(b.subs[id]));
  }
}
