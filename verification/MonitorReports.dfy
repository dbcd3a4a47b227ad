/**
 What becomes of a session whose source reports it as over again and again.
 */
module MonitorReports {
  import opened Session
  import opened MonitorSpec
  import opened MonitorInvariants

  // The step commits an update of the session.
  predicate Updates(w: World, op: Op, id: string) {
    && op.ParseHandle? && op.handle.id == id
    && var r := op.parse(CursorAt(w.state, CursorKey(op.source, id)));
       r.Parsed? && r.update.info.sessionID != ""
  }

  // ... one that says the session is over.
  predicate ReportsEnd(w: World, op: Op, id: string) {
    Updates(w, op, id) && op.parse(CursorAt(w.state, CursorKey(op.source, id))).update.info.terminal
  }

  // The step neither updates the session nor ends it for another reason; removing it is no matter.
  predicate Quiet(cfg: Config, w: World, op: Op, id: string) {
    match op
    case ParseHandle(_, _, _, _) => !Updates(w, op, id)
    case StaleCheck(x, now) => x == id && id in w.state.store ==> !IsStale(cfg, w.state.store[id].info, now)
    case SlugCheck(x, slugs, _) => x == id && id in w.state.store ==> !SlugDone(w.state.store[id].info, slugs)
    case _ => true
  }

  // Every step is a report or quiet.
  ghost predicate OnlyReports(cfg: Config, w: World, ops: seq<Op>, id: string) {
    ops != [] ==>
      var n := |ops| - 1;
      var mid := Run(cfg, w, ops[..n]);
      OnlyReports(cfg, w, ops[..n], id) && (ReportsEnd(mid, ops[n], id) || Quiet(cfg, mid, ops[n], id))
  }

  function Reports(cfg: Config, w: World, ops: seq<Op>, id: string): nat {
    if ops == [] then 0 else
      var n := |ops| - 1;
      Reports(cfg, w, ops[..n], id) + if ReportsEnd(Run(cfg, w, ops[..n]), ops[n], id) then 1 else 0
  }

  predicate IsLive(st: State, id: string) {
    PhaseOf(st, id) == Live
  }

  predicate Even(n: nat) {
    n == 0 || !Even(n - 1)
  }

  lemma {:induction false} EvenSum(a: nat, b: nat)
    ensures Even(a + b) <==> (Even(a) <==> Even(b))
  {
    if b > 0 {
      EvenSum(a, b - 1);
    }
  }

  lemma UpdateFlips(cfg: Config, w: World, op: Op, id: string)
    requires Inv(w.state) && ReportsEnd(w, op, id)
    ensures IsLive(Step(cfg, w, op).state, id) <==> !IsLive(w.state, id)
  {
    var r := op.parse(CursorAt(w.state, CursorKey(op.source, id)));
    PhaseAfterUpdate(w.state, op.source, op.handle, r.update, r.cursor, op.now);
  }

  lemma QuietKeeps(cfg: Config, w: World, op: Op, id: string)
    requires Inv(w.state) && Quiet(cfg, w, op, id)
    ensures IsLive(Step(cfg, w, op).state, id) <==> IsLive(w.state, id)
  {
    match op
    case ParseHandle(source, h, parse, now) =>
      var r := parse(CursorAt(w.state, CursorKey(source, h.id)));
      if r.Parsed? && r.update.info.sessionID != "" {
        CommitLeavesOthers(w.state, source, h, r.update, r.cursor, now, id);
      }
    case _ =>
  }

  lemma {:induction false} StepsAlternate(cfg: Config, w: World, ops: seq<Op>, id: string)
    requires Inv(w.state) && OnlyReports(cfg, w, ops, id)
    ensures IsLive(Run(cfg, w, ops).state, id) <==> (IsLive(w.state, id) <==> Even(Reports(cfg, w, ops, id)))
  {
    if ops != [] {
      var n := |ops| - 1;
      var mid := Run(cfg, w, ops[..n]);
      StepsAlternate(cfg, w, ops[..n], id);
      RunKeepsInv(cfg, w, ops[..n]);
      if ReportsEnd(mid, ops[n], id) {
        UpdateFlips(cfg, mid, ops[n], id);
        EvenSum(Reports(cfg, w, ops[..n], id), 1);
      } else {
        QuietKeeps(cfg, mid, ops[n], id);
      }
    }
  }

  /******* Over runs of polls *******/

  ghost predicate PollOnlyReports(cfg: Config, st: State, r: PollRun, id: string) {
    OnlyReports(cfg, World(st, EMPTY_OUTBOX), RunOps(cfg, st, r), id)
  }

  function PollReports(cfg: Config, st: State, r: PollRun, id: string): nat {
    Reports(cfg, World(st, EMPTY_OUTBOX), RunOps(cfg, st, r), id)
  }

  lemma PollAlternates(cfg: Config, m: Monitoring, r: PollRun, id: string)
    requires Inv(m.state) && PollOnlyReports(cfg, m.state, r, id)
    ensures IsLive(AfterRun(cfg, m, r).state, id)
       <==> (IsLive(m.state, id) <==> Even(PollReports(cfg, m.state, r, id)))
  {
    StepsAlternate(cfg, World(m.state, EMPTY_OUTBOX), RunOps(cfg, m.state, r), id);
    RunOpsAreTheRun(cfg, m, r);
  }

  ghost predicate RunsOnlyReport(cfg: Config, m: Monitoring, rs: seq<PollRun>, id: string) {
    rs != [] ==>
      && RunsOnlyReport(cfg, m, rs[..|rs| - 1], id)
      && PollOnlyReports(cfg, AfterRuns(cfg, m, rs[..|rs| - 1]).state, rs[|rs| - 1], id)
  }

  function RunReports(cfg: Config, m: Monitoring, rs: seq<PollRun>, id: string): nat {
    if rs == [] then 0 else
      RunReports(cfg, m, rs[..|rs| - 1], id)
      + PollReports(cfg, AfterRuns(cfg, m, rs[..|rs| - 1]).state, rs[|rs| - 1], id)
  }

  // What the last poll adds.
  lemma LastReports(cfg: Config, m: Monitoring, rs: seq<PollRun>, id: string, live: bool, total: nat) returns (k: nat)
    requires rs != [] && Inv(m.state) && RunsOnlyReport(cfg, m, rs, id)
    requires live == IsLive(AfterRuns(cfg, m, rs[..|rs| - 1]).state, id)
    requires total == RunReports(cfg, m, rs[..|rs| - 1], id)
    ensures IsLive(AfterRuns(cfg, m, rs).state, id) <==> (live <==> Even(k))
    ensures RunReports(cfg, m, rs, id) == total + k
  {
    var before := AfterRuns(cfg, m, rs[..|rs| - 1]);
    k := PollReports(cfg, before.state, rs[|rs| - 1], id);
    RunsKeepInv(cfg, m, rs[..|rs| - 1]);
    PollAlternates(cfg, before, rs[|rs| - 1], id);
  }

  // One poll more changes whether the session is active exactly when it changes whether the reports are even.
  ghost predicate InTurn(cfg: Config, m: Monitoring, rs: seq<PollRun>, id: string) {
    IsLive(AfterRuns(cfg, m, rs).state, id) <==> Even(RunReports(cfg, m, rs, id))
  }

  lemma Turn(live: bool, live': bool, total: nat, total': nat, k: nat)
    requires live' == (live == Even(k)) && total' == total + k
    ensures (live' == Even(total')) == (live == Even(total))
  {
    EvenSum(total, k);
  }

  lemma LastAlternates(cfg: Config, m: Monitoring, rs: seq<PollRun>, id: string)
    requires rs != [] && Inv(m.state) && RunsOnlyReport(cfg, m, rs, id)
    ensures InTurn(cfg, m, rs, id) <==> InTurn(cfg, m, rs[..|rs| - 1], id)
  {
    var live, total := IsLive(AfterRuns(cfg, m, rs[..|rs| - 1]).state, id), RunReports(cfg, m, rs[..|rs| - 1], id);
    var k := LastReports(cfg, m, rs, id, live, total);
    Turn(live, IsLive(AfterRuns(cfg, m, rs).state, id), total, RunReports(cfg, m, rs, id), k);
  }

  lemma {:induction false} TurnsAlternate(cfg: Config, m: Monitoring, rs: seq<PollRun>, id: string)
    requires Inv(m.state) && RunsOnlyReport(cfg, m, rs, id)
    ensures InTurn(cfg, m, rs, id) <==> IsLive(m.state, id)
  {
    if rs != [] {
      TurnsAlternate(cfg, m, rs[..|rs| - 1], id);
      LastAlternates(cfg, m, rs, id);
    }
  }

  // Reporting the end of a session does not settle it: whatever else the polls do, as long as nothing but reports
  // updates the session and no sweep ends it, each report ends it if it is active and makes it active if it is not.
  lemma TerminalUpdatesAlternate(cfg: Config, m: Monitoring, rs: seq<PollRun>, id: string)
    requires Inv(m.state) && RunsOnlyReport(cfg, m, rs, id)
    ensures IsLive(AfterRuns(cfg, m, rs).state, id)
       <==> (IsLive(m.state, id) <==> Even(RunReports(cfg, m, rs, id)))
  {
    TurnsAlternate(cfg, m, rs, id);
  }

  /******* A source that reports the end in every poll *******/

  // Whatever cursor it is given, it says the session is over, and names no subagents.
  ghost predicate AlwaysEnds(parse: Parse) {
    forall c ::
      var r := parse(c);
      r.Parsed? && r.update.info.sessionID != "" && r.update.info.terminal && r.update.subagents == []
  }

  // One poll of that source alone, at time `t`.
  function ArchivedPoll(name: string, h: SessionHandle, parse: Parse, t: Time): Poll {
    Poll([SourceScript(name, Found([HandleScript(h, parse, t)]), t)], Clock(t, t, t, t), Orders([h.id], [], [h.id]))
  }

  function ArchivedRuns(name: string, h: SessionHandle, parse: Parse, times: seq<Time>): (rs: seq<PollRun>)
    ensures |rs| == |times|
  {
    seq(|times|, i requires 0 <= i < |times| => Completed(ArchivedPoll(name, h, parse, times[i])))
  }

  // At most this session is stored, without subagents.
  ghost predicate Alone(st: State, id: string) {
    st.store.Keys <= {id} && (id in st.store ==> st.store[id].subagents == [])
  }

  lemma OnlyReportsOne(cfg: Config, w: World, ops: seq<Op>, op: Op, id: string)
    requires OnlyReports(cfg, w, ops, id)
    requires var mid := Run(cfg, w, ops); ReportsEnd(mid, op, id) || Quiet(cfg, mid, op, id)
    ensures Run(cfg, w, ops + [op]) == Step(cfg, Run(cfg, w, ops), op)
    ensures OnlyReports(cfg, w, ops + [op], id)
    ensures Reports(cfg, w, ops + [op], id)
         == Reports(cfg, w, ops, id) + if ReportsEnd(Run(cfg, w, ops), op, id) then 1 else 0
  {
    assert (ops + [op])[..|ops + [op]| - 1] == ops;
  }

  lemma ArchivedOps(name: string, h: SessionHandle, parse: Parse, t: Time)
    ensures SourcesOps(ArchivedPoll(name, h, parse, t).script)
         == [BeginSource] + [ParseHandle(name, h, parse, t)] + [EndSource(name, t)]
  {
    var script := ArchivedPoll(name, h, parse, t).script;
    assert script[..0] == [] && SourcesOps([]) == [];
  }

  // Only this session is stored, with data from time `t`.
  ghost predicate FreshAlone(st: State, id: string, t: Time) {
    Alone(st, id) && id in st.store && st.store[id].info.lastDataReceivedAt == t
  }

  lemma ArchivedReport(cfg: Config, w: World, name: string, h: SessionHandle, parse: Parse, t: Time)
    requires Alone(w.state, h.id) && AlwaysEnds(parse)
    ensures ReportsEnd(w, ParseHandle(name, h, parse, t), h.id)
    ensures FreshAlone(Step(cfg, w, ParseHandle(name, h, parse, t)).state, h.id, t)
  {
    var r := parse(CursorAt(w.state, CursorKey(name, h.id)));
    assert Step(cfg, w, ParseHandle(name, h, parse, t)) == Commit(w, name, h, r.update, r.cursor, t);
  }

  lemma EndSourceKeeps(cfg: Config, w: World, name: string, t: Time)
    ensures Step(cfg, w, EndSource(name, t)).state.store == w.state.store
  {
  }

  // The source steps: one report.
  lemma ArchivedSource(cfg: Config, st: State, name: string, h: SessionHandle, parse: Parse, t: Time)
    requires Alone(st, h.id) && AlwaysEnds(parse)
    ensures var w, ops := World(st, EMPTY_OUTBOX), SourcesOps(ArchivedPoll(name, h, parse, t).script);
            && OnlyReports(cfg, w, ops, h.id) && Reports(cfg, w, ops, h.id) == 1
            && FreshAlone(Run(cfg, w, ops).state, h.id, t)
  {
    var w, op := World(st, EMPTY_OUTBOX), ParseHandle(name, h, parse, t);
    ArchivedOps(name, h, parse, t);
    assert [] + [BeginSource] == [BeginSource];
    OnlyReportsOne(cfg, w, [], BeginSource, h.id);
    ArchivedReport(cfg, Run(cfg, w, [BeginSource]), name, h, parse, t);
    OnlyReportsOne(cfg, w, [BeginSource], op, h.id);
    EndSourceKeeps(cfg, Run(cfg, w, [BeginSource] + [op]), name, t);
    OnlyReportsOne(cfg, w, [BeginSource] + [op], EndSource(name, t), h.id);
  }

  // The sweeps: the data is fresh, and no subagent is over.
  lemma ArchivedSweeps(cfg: Config, st: State, name: string, h: SessionHandle, parse: Parse, t: Time)
    requires Alone(st, h.id) && AlwaysEnds(parse)
    ensures var p := ArchivedPoll(name, h, parse, t);
            var polled := BeforeStale(cfg, st, p);
            && (cfg.staleThreshold > 0 ==> Quiet(cfg, polled, StaleCheck(h.id, t), h.id))
            && BeforeSlug(cfg, st, p) == polled && BeforeRetention(cfg, st, p) == polled
            && PollOps(cfg, st, p)
               == SourcesOps(p.script) + StaleOps(cfg, [h.id], t) + [RetentionCheck(h.id, t)]
            && AfterPoll(cfg, st, p) == Step(cfg, polled, RetentionCheck(h.id, t))
            && OrdersOk(cfg, st, p)
  {
    var p := ArchivedPoll(name, h, parse, t);
    var polled := BeforeStale(cfg, st, p);
    ArchivedSource(cfg, st, name, h, parse, t);
    QuietStaleSweep(cfg, polled, h.id, t);
    NoSlugs(polled.state, h.id);
    assert SlugOps({}, [], t) == [] && RetentionOps([h.id], t) == [RetentionCheck(h.id, t)];
    RunSingle(cfg, polled, RetentionCheck(h.id, t));
    var ops := SourcesOps(p.script) + StaleOps(cfg, [h.id], t);
    assert ops + [] == ops;
  }

  lemma NoSlugs(st: State, id: string)
    requires Alone(st, id)
    ensures CompletedSlugs(st.store) == {}
  {
    assert SlugsOf([]) == {};
  }

  lemma QuietStaleSweep(cfg: Config, w: World, id: string, t: Time)
    requires id in w.state.store && w.state.store[id].info.lastDataReceivedAt == t
    ensures Run(cfg, w, StaleOps(cfg, [id], t)) == w
    ensures cfg.staleThreshold > 0 ==> Quiet(cfg, w, StaleCheck(id, t), id)
  {
    if cfg.staleThreshold > 0 {
      assert StaleOps(cfg, [id], t) == [StaleCheck(id, t)];
      RunSingle(cfg, w, StaleCheck(id, t));
    }
  }

  lemma RetentionKeepsAlone(cfg: Config, w: World, id: string, t: Time)
    requires Alone(w.state, id)
    ensures Alone(Step(cfg, w, RetentionCheck(id, t)).state, id)
  {
  }

  lemma QuietStaleSteps(cfg: Config, w: World, ops: seq<Op>, id: string, t: Time)
    requires OnlyReports(cfg, w, ops, id)
    requires cfg.staleThreshold > 0 ==> Quiet(cfg, Run(cfg, w, ops), StaleCheck(id, t), id)
    ensures var more := ops + StaleOps(cfg, [id], t);
            OnlyReports(cfg, w, more, id) && Reports(cfg, w, more, id) == Reports(cfg, w, ops, id)
  {
    if cfg.staleThreshold > 0 {
      assert StaleOps(cfg, [id], t) == [StaleCheck(id, t)];
      OnlyReportsOne(cfg, w, ops, StaleCheck(id, t), id);
    } else {
      assert ops + StaleOps(cfg, [id], t) == ops;
    }
  }

  // The whole poll.
  lemma ArchivedPollReports(cfg: Config, st: State, name: string, h: SessionHandle, parse: Parse, t: Time)
    requires Alone(st, h.id) && AlwaysEnds(parse)
    ensures var p := ArchivedPoll(name, h, parse, t);
            && OrdersOk(cfg, st, p) && PollOnlyReports(cfg, st, Completed(p), h.id)
            && PollReports(cfg, st, Completed(p), h.id) == 1
            && Alone(AfterPoll(cfg, st, p).state, h.id)
  {
    var w, p := World(st, EMPTY_OUTBOX), ArchivedPoll(name, h, parse, t);
    var a, b := SourcesOps(p.script), StaleOps(cfg, [h.id], t);
    ArchivedSource(cfg, st, name, h, parse, t);
    ArchivedSweeps(cfg, st, name, h, parse, t);
    QuietStaleSteps(cfg, w, a, h.id, t);
    OnlyReportsOne(cfg, w, a + b, RetentionCheck(h.id, t), h.id);
    RetentionKeepsAlone(cfg, BeforeStale(cfg, st, p), h.id, t);
  }

  lemma ArchivedNext(cfg: Config, rs: seq<PollRun>, p: Poll, id: string, k: nat)
    requires rs != [] && rs[|rs| - 1] == Completed(p)
    requires var before := rs[..|rs| - 1];
             RunsOk(cfg, STARTED, before) && RunsOnlyReport(cfg, STARTED, before, id)
             && RunReports(cfg, STARTED, before, id) == k
    requires var st := AfterRuns(cfg, STARTED, rs[..|rs| - 1]).state;
             && OrdersOk(cfg, st, p) && PollOnlyReports(cfg, st, Completed(p), id)
             && PollReports(cfg, st, Completed(p), id) == 1 && Alone(AfterPoll(cfg, st, p).state, id)
    ensures RunsOk(cfg, STARTED, rs) && RunsOnlyReport(cfg, STARTED, rs, id)
    ensures RunReports(cfg, STARTED, rs, id) == k + 1 && Alone(AfterRuns(cfg, STARTED, rs).state, id)
  {
  }

  lemma {:induction false} ArchivedRunsReport(cfg: Config, name: string, h: SessionHandle, parse: Parse,
                                              times: seq<Time>)
    requires AlwaysEnds(parse)
    ensures var rs := ArchivedRuns(name, h, parse, times);
            && RunsOk(cfg, STARTED, rs) && Alone(AfterRuns(cfg, STARTED, rs).state, h.id)
            && RunsOnlyReport(cfg, STARTED, rs, h.id) && RunReports(cfg, STARTED, rs, h.id) == |times|
  {
    if times != [] {
      var n := |times| - 1;
      var rs := ArchivedRuns(name, h, parse, times);
      ArchivedRunsReport(cfg, name, h, parse, times[..n]);
      assert rs[..n] == ArchivedRuns(name, h, parse, times[..n]);
      ArchivedPollReports(cfg, AfterRuns(cfg, STARTED, rs[..n]).state, name, h, parse, times[n]);
      ArchivedNext(cfg, rs, ArchivedPoll(name, h, parse, times[n]), h.id, n);
    }
  }

  // Over any number of such polls, whatever the clock shows and the configuration says, the session is active after
  // every other poll.
  lemma ArchivedSessionFlaps(cfg: Config, name: string, h: SessionHandle, parse: Parse, times: seq<Time>)
    requires AlwaysEnds(parse)
    ensures var rs := ArchivedRuns(name, h, parse, times);
            RunsOk(cfg, STARTED, rs) && (IsLive(AfterRuns(cfg, STARTED, rs).state, h.id) <==> !Even(|times|))
  {
    ArchivedRunsReport(cfg, name, h, parse, times);
    TerminalUpdatesAlternate(cfg, STARTED, ArchivedRuns(name, h, parse, times), h.id);
  }
}
