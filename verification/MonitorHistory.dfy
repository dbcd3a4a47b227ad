/**
 What a stored session holds, told by the updates committed to it since it was last untracked or removed.
 */
module MonitorHistory {
  import opened Wrappers
  import opened Session
  import opened MonitorSpec
  import opened MonitorReports

  // One committed update, with the handle it came for and the time it came at.
  datatype Commitment = Commitment(handle: SessionHandle, update: Update, at: Time)

  // The updates of session `id` after one more step: an update is added, and a removal forgets them all.
  function AfterStep(cfg: Config, w: World, op: Op, id: string, log: seq<Commitment>): seq<Commitment> {
    if Updates(w, op, id) then
      log + [Commitment(op.handle, op.parse(CursorAt(w.state, CursorKey(op.source, id))).update, op.now)]
    else if id in w.state.store && id !in Step(cfg, w, op).state.store then []
    else log
  }

  function AfterSteps(cfg: Config, w: World, ops: seq<Op>, id: string, log: seq<Commitment>): seq<Commitment> {
    if ops == [] then log else
      var n := |ops| - 1;
      AfterStep(cfg, Run(cfg, w, ops[..n]), ops[n], id, AfterSteps(cfg, w, ops[..n], id, log))
  }

  function History(cfg: Config, rs: seq<PollRun>, id: string): seq<Commitment> {
    if rs == [] then [] else
      var n := |rs| - 1;
      var st := AfterRuns(cfg, STARTED, rs[..n]).state;
      AfterSteps(cfg, World(st, EMPTY_OUTBOX), RunOps(cfg, st, rs[n]), id, History(cfg, rs[..n], id))
  }

  /******* The last writer *******/

  datatype Name = Slug | Activity | Model | CurrentTool | WorkingDir | Branch

  function NameOf(s: SessionInfo, f: Name): string {
    match f
    case Slug => s.slug
    case Activity => s.activity
    case Model => s.model
    case CurrentTool => s.currentTool
    case WorkingDir => s.workingDir
    case Branch => s.branch
  }

  function NameIn(u: UpdateInfo, f: Name): string {
    match f
    case Slug => u.slug
    case Activity => u.activity
    case Model => u.model
    case CurrentTool => u.currentTool
    case WorkingDir => u.workingDir
    case Branch => u.branch
  }

  // The last name that is not empty.
  function LastName(log: seq<Commitment>, f: Name): string {
    if log == [] then "" else
      var n := |log| - 1;
      var name := NameIn(log[n].update.info, f);
      if name != "" then name else LastName(log[..n], f)
  }

  // The last token limit that is positive.
  function LastLimit(log: seq<Commitment>): int {
    if log == [] then 0 else
      var n := |log| - 1;
      if log[n].update.info.maxContextTokens > 0 then log[n].update.info.maxContextTokens else LastLimit(log[..n])
  }

  // The last start time an update gives, else that of the first handle.
  function LastStart(log: seq<Commitment>): Time
    requires log != []
  {
    var n := |log| - 1;
    if log[n].update.info.startedAt != 0 then log[n].update.info.startedAt
    else if n == 0 then log[0].handle.startedAt
    else LastStart(log[..n])
  }

  function LastActivity(log: seq<Commitment>): Time {
    if log == [] then 0 else
      var n := |log| - 1;
      if log[n].update.info.lastActivityAt != 0 then log[n].update.info.lastActivityAt else LastActivity(log[..n])
  }

  // The last list of subagents that is not empty.
  function LastSubagents(log: seq<Commitment>): seq<SubagentState> {
    if log == [] then [] else
      var n := |log| - 1;
      if log[n].update.subagents != [] then log[n].update.subagents else LastSubagents(log[..n])
  }

  datatype Counter = Messages | ToolCalls | Compactions

  function CountOf(s: SessionInfo, c: Counter): int {
    match c
    case Messages => s.messageCount
    case ToolCalls => s.toolCallCount
    case Compactions => s.compactionCount
  }

  function DeltaIn(u: UpdateInfo, c: Counter): int {
    match c
    case Messages => u.messageCountDelta
    case ToolCalls => u.toolCallCountDelta
    case Compactions => u.compactionCountDelta
  }

  function SumOfDeltas(log: seq<Commitment>, c: Counter): int {
    if log == [] then 0 else SumOfDeltas(log[..|log| - 1], c) + DeltaIn(log[|log| - 1].update.info, c)
  }

  // Token counts are those of the last update, whatever it says.
  ghost predicate TokensTold(s: SessionInfo, log: seq<Commitment>)
    requires log != []
  {
    var u := log[|log| - 1].update.info;
    && s.contextTokens == u.contextTokens && s.outputTokens == u.outputTokens && s.tokenEstimated == u.tokenEstimated
    && s.maxContextTokens == LastLimit(log)
  }

  ghost predicate TimesTold(s: SessionInfo, log: seq<Commitment>)
    requires log != []
  {
    && s.startedAt == LastStart(log)
    && s.lastActivityAt == LastActivity(log)
    && s.lastDataReceivedAt == log[|log| - 1].at
  }

  ghost predicate Told(s: SessionState, log: seq<Commitment>) {
    && log != []
    && s.info.id == log[0].handle.id && s.info.source == log[0].handle.source
    && TokensTold(s.info, log) && TimesTold(s.info, log)
    && (forall f :: NameOf(s.info, f) == LastName(log, f))
    && (forall c :: CountOf(s.info, c) == SumOfDeltas(log, c))
    && s.subagents == LastSubagents(log)
  }

  ghost predicate StoreTold(st: State, id: string, log: seq<Commitment>) {
    && (id in st.store <==> log != [])
    && (id in st.store ==> Told(st.store[id], log))
  }

  // The same session with another lifecycle and completion time.
  predicate SameData(s: SessionState, t: SessionState) {
    s.info == t.info.(lifecycle := s.info.lifecycle) && s.subagents == t.subagents
  }

  lemma SameDataTold(s: SessionState, t: SessionState, log: seq<Commitment>)
    requires SameData(s, t) && Told(t, log)
    ensures Told(s, log)
  {
    assert forall f :: NameOf(s.info, f) == NameOf(t.info, f);
    assert forall c :: CountOf(s.info, c) == CountOf(t.info, c);
  }

  // One update more.
  lemma MergeTold(s: SessionState, log: seq<Commitment>, c: Commitment)
    requires Told(s, log)
    ensures Told(Merge(s, c.update, c.at), log + [c])
  {
    var s', log' := Merge(s, c.update, c.at), log + [c];
    assert log'[..|log|] == log;
    forall f ensures NameOf(s'.info, f) == LastName(log', f) {
      assert NameOf(s.info, f) == LastName(log, f);
    }
    forall k ensures CountOf(s'.info, k) == SumOfDeltas(log', k) {
      assert CountOf(s.info, k) == SumOfDeltas(log, k);
    }
  }

  lemma FirstTold(c: Commitment)
    ensures Told(Merge(Session(BaseInfo(c.handle), None, []), c.update, c.at), [c])
  {
    var s, log := Merge(Session(BaseInfo(c.handle), None, []), c.update, c.at), [c];
    assert log[..0] == [];
    forall f ensures NameOf(s.info, f) == LastName(log, f) {
      assert LastName([], f) == "";
    }
    forall k ensures CountOf(s.info, k) == SumOfDeltas(log, k) {
      assert SumOfDeltas([], k) == 0;
    }
  }

  lemma UpdatedTold(st: State, h: SessionHandle, u: Update, now: Time, log: seq<Commitment>)
    requires StoreTold(st, h.id, log)
    ensures Told(Updated(st, h, u, now), log + [Commitment(h, u, now)])
  {
    var c := Commitment(h, u, now);
    var s := if h.id in st.store then st.store[h.id] else Session(BaseInfo(h), None, []);
    var merged := Merge(s, u, now);
    if h.id in st.store {
      MergeTold(s, log, c);
    } else {
      FirstTold(c);
      assert log + [c] == [c];
    }
    assert SameData(Updated(st, h, u, now), merged);
    SameDataTold(Updated(st, h, u, now), merged, log + [c]);
  }

  // A step that does not update the session leaves its data alone, or removes it.
  lemma OtherStepsKeepData(cfg: Config, w: World, op: Op, id: string)
    requires !Updates(w, op, id)
    ensures var st, st' := w.state, Step(cfg, w, op).state;
            id in st'.store ==> id in st.store && SameData(st'.store[id], st.store[id])
  {
  }

  lemma StepTold(cfg: Config, w: World, op: Op, id: string, log: seq<Commitment>)
    requires StoreTold(w.state, id, log)
    ensures StoreTold(Step(cfg, w, op).state, id, AfterStep(cfg, w, op, id, log))
  {
    var st' := Step(cfg, w, op).state;
    if Updates(w, op, id) {
      var r := op.parse(CursorAt(w.state, CursorKey(op.source, id)));
      UpdatedTold(w.state, op.handle, r.update, op.now, log);
      assert Step(cfg, w, op) == Commit(w, op.source, op.handle, r.update, r.cursor, op.now);
    } else {
      OtherStepsKeepData(cfg, w, op, id);
      if id in st'.store {
        SameDataTold(st'.store[id], w.state.store[id], log);
      }
    }
  }

  lemma {:induction false} StepsTold(cfg: Config, w: World, ops: seq<Op>, id: string, log: seq<Commitment>)
    requires StoreTold(w.state, id, log)
    ensures StoreTold(Run(cfg, w, ops).state, id, AfterSteps(cfg, w, ops, id, log))
  {
    if ops != [] {
      var n := |ops| - 1;
      StepsTold(cfg, w, ops[..n], id, log);
      StepTold(cfg, Run(cfg, w, ops[..n]), ops[n], id, AfterSteps(cfg, w, ops[..n], id, log));
    }
  }

  // After every run of polls, completed or cancelled: a session is stored if and only if an update was committed to it
  // since it was last untracked or removed, and everything it holds but its lifecycle is told by those updates.
  lemma {:induction false} LastWriter(cfg: Config, rs: seq<PollRun>, id: string)
    ensures StoreTold(AfterRuns(cfg, STARTED, rs).state, id, History(cfg, rs, id))
  {
    if rs != [] {
      var n := |rs| - 1;
      var m := AfterRuns(cfg, STARTED, rs[..n]);
      LastWriter(cfg, rs[..n], id);
      StepsTold(cfg, World(m.state, EMPTY_OUTBOX), RunOps(cfg, m.state, rs[n]), id, History(cfg, rs[..n], id));
      RunOpsAreTheRun(cfg, m, rs[n]);
    }
  }
}
