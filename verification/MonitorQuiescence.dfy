/**
 After a completed poll nothing is left to sweep, and health follows the failures since the
 last clean poll.
 */
module MonitorQuiescence {
  import opened Wrappers
  import opened Session
  import opened Collections
  import opened MonitorSpec
  import opened MonitorInvariants

  /******* Quiescence *******/

  // No active session that ever received data has been without any for longer than a positive threshold.
  ghost predicate NoneStale(cfg: Config, store: map<string, SessionState>, now: Time) {
    cfg.staleThreshold > 0 ==>
      forall id :: id in store && store[id].info.lifecycle == Active && store[id].info.lastDataReceivedAt != 0 ==>
        now - store[id].info.lastDataReceivedAt <= cfg.staleThreshold
  }

  // No active session has the slug of a terminal subagent of a stored session, but for the empty one.
  ghost predicate NoneSlugDone(store: map<string, SessionState>) {
    forall id, k, sub :: id in store && k in store && sub in store[k].subagents ==>
      store[id].info.lifecycle == Active && store[id].info.slug != "" && sub.activity == "terminal" ==>
        sub.slug != store[id].info.slug
  }

  // No terminal session was completed as long ago as the retention.
  ghost predicate NoneExpired(cfg: Config, store: map<string, SessionState>, now: Time) {
    forall id :: id in store && store[id].info.lifecycle == Terminal && store[id].completedAt.Some? ==>
      now - store[id].completedAt.value < cfg.completionRetention
  }

  lemma SlugDoneIs(store: map<string, SessionState>)
    ensures NoneSlugDone(store) <==> forall id :: id in store ==> !SlugDone(store[id].info, CompletedSlugs(store))
  {
    if id :| id in store && SlugDone(store[id].info, CompletedSlugs(store)) {
      var k :| k in store && store[id].info.slug in SlugsOf(store[k].subagents);
      var i :| 0 <= i < |store[k].subagents| && MarksSlug(store[k].subagents[i], store[id].info.slug);
      assert store[k].subagents[i] in store[k].subagents;
    }
    if !NoneSlugDone(store) {
      var id, k, sub :|
        && id in store && k in store && sub in store[k].subagents && store[id].info.lifecycle == Active
        && store[id].info.slug != "" && sub.activity == "terminal" && sub.slug == store[id].info.slug;
      var i :| 0 <= i < |store[k].subagents| && store[k].subagents[i] == sub;
      assert MarksSlug(sub, sub.slug);
      assert sub.slug in SlugsOf(store[k].subagents);
      assert SlugDone(store[id].info, CompletedSlugs(store));
    }
  }

  // `b` is `a` after some sessions were ended and some dropped.
  ghost predicate Settles(a: map<string, SessionState>, b: map<string, SessionState>) {
    forall id :: id in b ==>
      && id in a
      && b[id].subagents == a[id].subagents
      && (b[id].info.lifecycle == Active ==> b[id] == a[id])
  }

  lemma {:induction false} SweepsSettle(cfg: Config, w: World, ops: seq<Op>)
    requires forall i :: 0 <= i < |ops| ==> IsSweepOp(ops[i])
    ensures Settles(w.state.store, Run(cfg, w, ops).state.store)
  {
    if ops != [] {
      var n := |ops| - 1;
      SweepsSettle(cfg, w, ops[..n]);
      SweepSettles(cfg, Run(cfg, w, ops[..n]), ops[n]);
    }
  }

  lemma SweepSettles(cfg: Config, w: World, op: Op)
    requires IsSweepOp(op)
    ensures Settles(w.state.store, Step(cfg, w, op).state.store)
  {
  }

  lemma SettledStaysClear(cfg: Config, a: map<string, SessionState>, b: map<string, SessionState>, now: Time)
    requires Settles(a, b)
    ensures NoneStale(cfg, a, now) ==> NoneStale(cfg, b, now)
    ensures NoneSlugDone(a) ==> NoneSlugDone(b)
    ensures CompletedSlugs(b) <= CompletedSlugs(a)
  {
    assert forall id :: id in b ==> b[id].subagents == a[id].subagents;
    SlugDoneIs(a);
    SlugDoneIs(b);
  }

  // The sweep clears every session it has visited.
  lemma {:induction false} StaleSweepClears(cfg: Config, w: World, order: seq<string>, now: Time)
    requires cfg.staleThreshold > 0
    ensures var end := Run(cfg, w, StaleOps(cfg, order, now)).state.store;
            forall id :: id in order && id in end ==> !IsStale(cfg, end[id].info, now)
    decreases |order|
  {
    if order != [] {
      var n := |order| - 1;
      assert StaleOps(cfg, order, now)[..n] == StaleOps(cfg, order[..n], now);
      StaleSweepClears(cfg, w, order[..n], now);
      assert forall id :: id in order <==> id in order[..n] || id == order[n];
    }
  }

  lemma {:induction false} SlugSweepClears(cfg: Config, w: World, slugs: set<string>, order: seq<string>, now: Time)
    requires slugs != {}
    ensures var end := Run(cfg, w, SlugOps(slugs, order, now)).state.store;
            forall id :: id in order && id in end ==> !SlugDone(end[id].info, slugs)
    decreases |order|
  {
    if order != [] {
      var n := |order| - 1;
      assert SlugOps(slugs, order, now)[..n] == SlugOps(slugs, order[..n], now);
      SlugSweepClears(cfg, w, slugs, order[..n], now);
      assert forall id :: id in order <==> id in order[..n] || id == order[n];
    }
  }

  lemma {:induction false} RetentionSweepClears(cfg: Config, w: World, order: seq<string>, now: Time)
    ensures var end := Run(cfg, w, RetentionOps(order, now)).state.store;
            forall id :: id in order && id in end ==> !Expired(cfg, end[id], now)
    decreases |order|
  {
    if order != [] {
      var n := |order| - 1;
      assert RetentionOps(order, now)[..n] == RetentionOps(order[..n], now);
      RetentionSweepClears(cfg, w, order[..n], now);
      assert forall id :: id in order <==> id in order[..n] || id == order[n];
    }
  }

  lemma StaleSweep(cfg: Config, w: World, order: seq<string>, now: Time)
    requires Visits(order, w.state.store.Keys)
    ensures NoneStale(cfg, Run(cfg, w, StaleOps(cfg, order, now)).state.store, now)
  {
    if cfg.staleThreshold > 0 {
      SweepsSettle(cfg, w, StaleOps(cfg, order, now));
      StaleSweepClears(cfg, w, order, now);
    }
  }

  // The slugs are those of the store as the sweep finds it; the sweep leaves the subagents alone.
  lemma SlugSweep(cfg: Config, w: World, order: seq<string>, now: Time)
    requires CompletedSlugs(w.state.store) != {} ==> Visits(order, w.state.store.Keys)
    ensures var end := Run(cfg, w, SlugOps(CompletedSlugs(w.state.store), order, now)).state.store;
            NoneSlugDone(end) && Settles(w.state.store, end)
  {
    var slugs := CompletedSlugs(w.state.store);
    SweepsSettle(cfg, w, SlugOps(slugs, order, now));
    SettledStaysClear(cfg, w.state.store, Run(cfg, w, SlugOps(slugs, order, now)).state.store, now);
    if slugs != {} {
      SlugSweepClears(cfg, w, slugs, order, now);
    }
    SlugDoneIs(Run(cfg, w, SlugOps(slugs, order, now)).state.store);
  }

  lemma RetentionSweep(cfg: Config, w: World, order: seq<string>, now: Time)
    requires Visits(order, w.state.store.Keys)
    ensures var end := Run(cfg, w, RetentionOps(order, now)).state.store;
            NoneExpired(cfg, end, now) && Settles(w.state.store, end)
  {
    SweepsSettle(cfg, w, RetentionOps(order, now));
    RetentionSweepClears(cfg, w, order, now);
  }

  // After a completed poll, all at once: no active session is past the stale threshold (when there
  // is one), none carries the slug of a terminal subagent of a stored session, and no terminal
  // session is past retention.
  lemma Quiescence(cfg: Config, st: State, p: Poll)
    requires OrdersOk(cfg, st, p)
    ensures var store := AfterPoll(cfg, st, p).state.store;
            && NoneStale(cfg, store, p.clock.stale)
            && NoneSlugDone(store)
            && NoneExpired(cfg, store, p.clock.retention)
  {
    var w1, w2, w3, w4 := BeforeStale(cfg, st, p), BeforeSlug(cfg, st, p),
                          BeforeRetention(cfg, st, p), AfterPoll(cfg, st, p);
    StaleSweep(cfg, w1, p.orders.stale, p.clock.stale);
    SlugSweep(cfg, w2, p.orders.slug, p.clock.slug);
    SettledStaysClear(cfg, w2.state.store, w3.state.store, p.clock.stale);
    RetentionSweep(cfg, w3, p.orders.retention, p.clock.retention);
    SettledStaysClear(cfg, w3.state.store, w4.state.store, p.clock.stale);
  }

  // The source has nothing for the cursor the monitor holds.
  ghost predicate NothingNew(st: State, op: Op) {
    match op
    case ParseHandle(source, h, parse, _) =>
      var r := parse(CursorAt(st, CursorKey(source, h.id)));
      r.ParseFailed? || r.update.info.sessionID == ""
    case _ => true
  }

  // No session, cursor or removal mark changed and nothing but health was collected.
  ghost predicate SameSessions(w: World, w': World) {
    && w'.state == w.state.(health := w'.state.health)
    && w'.out == w.out.(health := w'.out.health, parseFailures := w'.out.parseFailures)
  }

  lemma {:induction false} NothingNewChangesNothing(cfg: Config, w: World, ops: seq<Op>)
    requires forall i :: 0 <= i < |ops| ==> !IsSweepOp(ops[i]) && NothingNew(w.state, ops[i])
    ensures SameSessions(w, Run(cfg, w, ops))
  {
    if ops != [] {
      NothingNewChangesNothing(cfg, w, ops[..|ops| - 1]);
    }
  }

  // A sweep over a store it has nothing to do in.
  lemma {:induction false} IdleSweep(cfg: Config, w: World, ops: seq<Op>)
    requires forall i :: 0 <= i < |ops| ==> IsSweepOp(ops[i]) && Step(cfg, w, ops[i]) == w
    ensures Run(cfg, w, ops) == w
  {
    if ops != [] {
      IdleSweep(cfg, w, ops[..|ops| - 1]);
    }
  }

  // Polling again at the same time with nothing new changes no session, cursor or removal mark
  // and sends no lifecycle or delta event.
  lemma RepeatedPollIsSilent(cfg: Config, st: State, p: Poll, q: Poll, now: Time)
    requires OrdersOk(cfg, st, p)
    requires p.clock.stale == p.clock.slug == p.clock.retention == now
    requires q.clock.stale == q.clock.slug == q.clock.retention == now
    requires var mid := AfterPoll(cfg, st, p).state;
             forall i :: 0 <= i < |SourcesOps(q.script)| ==> NothingNew(mid, SourcesOps(q.script)[i])
    ensures var mid := AfterPoll(cfg, st, p).state;
            var w := AfterPoll(cfg, mid, q);
            && w.state == mid.(health := w.state.health)
            && w.out.updates == [] && w.out.removed == [] && w.out.lifecycles == []
            && forall seqNo: nat, ev :: ev in Emitted(seqNo, w.out, q.clock.delta) ==> ev.payload.HealthPayload?
  {
    Quiescence(cfg, st, p);
    var mid := AfterPoll(cfg, st, p).state;
    SourcesOpsAreNoSweeps(q.script);
    NothingNewChangesNothing(cfg, World(mid, EMPTY_OUTBOX), SourcesOps(q.script));
    QuietSweeps(cfg, mid, q);
    OnlyHealthSent(AfterPoll(cfg, mid, q).out, q.clock.delta);
  }

  lemma QuietSweeps(cfg: Config, st: State, q: Poll)
    requires var store := BeforeStale(cfg, st, q).state.store;
             && NoneStale(cfg, store, q.clock.stale)
             && NoneSlugDone(store)
             && NoneExpired(cfg, store, q.clock.retention)
    ensures AfterPoll(cfg, st, q) == BeforeStale(cfg, st, q)
  {
    var w := BeforeStale(cfg, st, q);
    QuietStale(cfg, w, q.orders.stale, q.clock.stale);
    QuietSlug(cfg, w, q.orders.slug, q.clock.slug);
    QuietRetention(cfg, w, q.orders.retention, q.clock.retention);
  }

  lemma QuietStale(cfg: Config, w: World, order: seq<string>, now: Time)
    requires NoneStale(cfg, w.state.store, now)
    ensures Run(cfg, w, StaleOps(cfg, order, now)) == w
  {
    IdleSweep(cfg, w, StaleOps(cfg, order, now));
  }

  lemma QuietSlug(cfg: Config, w: World, order: seq<string>, now: Time)
    requires NoneSlugDone(w.state.store)
    ensures Run(cfg, w, SlugOps(CompletedSlugs(w.state.store), order, now)) == w
  {
    SlugDoneIs(w.state.store);
    IdleSweep(cfg, w, SlugOps(CompletedSlugs(w.state.store), order, now));
  }

  lemma QuietRetention(cfg: Config, w: World, order: seq<string>, now: Time)
    requires NoneExpired(cfg, w.state.store, now)
    ensures Run(cfg, w, RetentionOps(order, now)) == w
  {
    IdleSweep(cfg, w, RetentionOps(order, now));
  }

  lemma OnlyHealthSent(out: Outbox, now: Time)
    requires out.updates == [] && out.removed == [] && out.lifecycles == []
    ensures forall seqNo: nat, ev :: ev in Emitted(seqNo, out, now) ==> ev.payload.HealthPayload?
  {
    forall seqNo: nat
      ensures Emitted(seqNo, out, now) == HealthEvents(seqNo, out.health)
    {
      assert LifecycleEvents(seqNo, out.lifecycles) == [];
      assert DeltaEvents(seqNo, out, now) == [];
    }
  }

  /******* Health *******/

  // One poll of one source, as its health sees it.
  datatype SourceOutcome = Unreachable(error: string) | Polled(failed: nat)

  // Failures since the last poll without any, by kind, and what the last one was.
  datatype Tally = Tally(unreachable: nat, unparsed: nat, error: string)

  const CLEAN: Tally := Tally(0, 0, "")

  function FailuresSinceClean(log: seq<SourceOutcome>): Tally {
    AddOutcomes(CLEAN, log)
  }

  function AddOutcomes(t: Tally, log: seq<SourceOutcome>): Tally {
    if log == [] then t else AddOutcome(AddOutcomes(t, log[..|log| - 1]), log[|log| - 1])
  }

  function AddOutcome(t: Tally, o: SourceOutcome): Tally {
    match o
    case Unreachable(error) => Tally(t.unreachable + 1, t.unparsed, error)
    case Polled(failed) => if failed == 0 then CLEAN else Tally(t.unreachable, t.unparsed + failed, "parse failure")
  }

  // Handles of the source being polled whose parse has failed so far.
  function FailedParses(cfg: Config, w: World, ops: seq<Op>): nat {
    if ops == [] then 0 else
      var n := |ops| - 1;
      match ops[n]
      case BeginSource => 0
      case ParseHandle(source, h, parse, _) =>
        FailedParses(cfg, w, ops[..n])
        + (if parse(CursorAt(Run(cfg, w, ops[..n]).state, CursorKey(source, h.id))).ParseFailed? then 1 else 0)
      case _ => FailedParses(cfg, w, ops[..n])
  }

  // How the polls of source `name` went.
  function OutcomesOf(cfg: Config, w: World, ops: seq<Op>, name: string): seq<SourceOutcome> {
    if ops == [] then [] else
      var n := |ops| - 1;
      OutcomesOf(cfg, w, ops[..n], name) + OutcomeOf(ops[n], name, FailedParses(cfg, w, ops[..n]))
  }

  function OutcomeOf(op: Op, name: string, failed: nat): seq<SourceOutcome> {
    match op
    case DiscoverFailed(source, error, _) => if source == name then [Unreachable(error)] else []
    case EndSource(source, _) => if source == name then [Polled(failed)] else []
    case _ => []
  }

  function RunOutcomes(cfg: Config, m: Monitoring, rs: seq<PollRun>, name: string): seq<SourceOutcome> {
    if rs == [] then [] else
      var st := AfterRuns(cfg, m, rs[..|rs| - 1]).state;
      RunOutcomes(cfg, m, rs[..|rs| - 1], name)
      + OutcomesOf(cfg, World(st, EMPTY_OUTBOX), RunOps(cfg, st, rs[|rs| - 1]), name)
  }

  // Counters and status of source `name` agree with how its polls went.
  ghost predicate HealthAgrees(cfg: Config, st: State, log: seq<SourceOutcome>, name: string) {
    Shows(cfg, HealthOf(st, name), FailuresSinceClean(log))
  }

  // The counters and the last error are those of the tally; the source is degraded from the threshold on and failed
  // from twice the threshold on.
  ghost predicate Shows(cfg: Config, sh: SourceHealth, t: Tally) {
    && Counts(sh, t)
    && (sh.status == Healthy <==> t.unreachable + t.unparsed < cfg.healthThreshold)
    && (sh.status == Failed <==> t.unreachable + t.unparsed >= 2 * cfg.healthThreshold)
  }

  predicate Counts(sh: SourceHealth, t: Tally) {
    sh.discoverFailures == t.unreachable && sh.parseFailures == t.unparsed && sh.lastError == t.error
  }

  lemma {:induction false} ParseFailuresCount(cfg: Config, w: World, ops: seq<Op>)
    requires w.out.parseFailures == 0
    ensures Run(cfg, w, ops).out.parseFailures == FailedParses(cfg, w, ops)
  {
    if ops != [] {
      ParseFailuresCount(cfg, w, ops[..|ops| - 1]);
    }
  }

  lemma {:induction false} AddOutcomesConcat(t: Tally, a: seq<SourceOutcome>, b: seq<SourceOutcome>)
    ensures AddOutcomes(t, a + b) == AddOutcomes(AddOutcomes(t, a), b)
  {
    if b == [] {
      assert a + b == a;
    } else {
      assert (a + b)[..|a + b| - 1] == a + b[..|b| - 1];
      AddOutcomesConcat(t, a, b[..|b| - 1]);
    }
  }

  lemma {:induction false} HealthFollowsOps(cfg: Config, w: World, ops: seq<Op>, t: Tally, name: string)
    requires w.out.parseFailures == 0 && Shows(cfg, HealthOf(w.state, name), t)
    ensures Shows(cfg, HealthOf(Run(cfg, w, ops).state, name), AddOutcomes(t, OutcomesOf(cfg, w, ops, name)))
  {
    if ops == [] {
      assert Run(cfg, w, ops) == w;
    } else {
      var n := |ops| - 1;
      HealthFollowsOps(cfg, w, ops[..n], t, name);
      ParseFailuresCount(cfg, w, ops[..n]);
      var log, failed := OutcomesOf(cfg, w, ops[..n], name), FailedParses(cfg, w, ops[..n]);
      HealthStep(cfg, Run(cfg, w, ops[..n]), ops[n], AddOutcomes(t, log), name);
      AddOpIsOutcome(AddOutcomes(t, log), ops[n], name, failed);
      AddOutcomesConcat(t, log, OutcomeOf(ops[n], name, failed));
    }
  }

  // The step's effect on the counters of source `name`.
  function AddOp(t: Tally, op: Op, name: string, failed: nat): Tally {
    match op
    case DiscoverFailed(source, error, _) => if source == name then AddOutcome(t, Unreachable(error)) else t
    case EndSource(source, _) => if source == name then AddOutcome(t, Polled(failed)) else t
    case _ => t
  }

  lemma Assoc<T>(a: seq<T>, b: seq<T>, c: seq<T>)
    ensures a + (b + c) == (a + b) + c
  {
  }

  lemma RecordShows(cfg: Config, w: World, source: string, sh: SourceHealth, now: Time, name: string, t: Tally)
    requires if source == name then Counts(sh, t) else Shows(cfg, HealthOf(w.state, name), t)
    ensures Shows(cfg, HealthOf(RecordHealth(cfg, w, source, sh, now).state, name), t)
  {
  }

  lemma HealthStep(cfg: Config, w: World, op: Op, t: Tally, name: string)
    requires Shows(cfg, HealthOf(w.state, name), t)
    ensures Shows(cfg, HealthOf(Step(cfg, w, op).state, name), AddOp(t, op, name, w.out.parseFailures))
  {
    match op
    case DiscoverFailed(_, _, _) => DiscoverHealthStep(cfg, w, op, t, name);
    case EndSource(_, _) => EndHealthStep(cfg, w, op, t, name);
    case _ => OtherHealthStep(cfg, w, op, name);
  }

  lemma OtherHealthStep(cfg: Config, w: World, op: Op, name: string)
    requires !op.DiscoverFailed? && !op.EndSource?
    ensures HealthOf(Step(cfg, w, op).state, name) == HealthOf(w.state, name)
  {
  }

  lemma DiscoverHealthStep(cfg: Config, w: World, op: Op, t: Tally, name: string)
    requires op.DiscoverFailed? && Shows(cfg, HealthOf(w.state, name), t)
    ensures Shows(cfg, HealthOf(Step(cfg, w, op).state, name), AddOp(t, op, name, w.out.parseFailures))
  {
    RecordShows(cfg, w, op.source, AfterDiscoverFailure(HealthOf(w.state, op.source), op.error), op.now, name,
                AddOp(t, op, name, w.out.parseFailures));
    StepRecords(cfg, w, op);
  }

  lemma EndHealthStep(cfg: Config, w: World, op: Op, t: Tally, name: string)
    requires op.EndSource? && Shows(cfg, HealthOf(w.state, name), t)
    ensures Shows(cfg, HealthOf(Step(cfg, w, op).state, name), AddOp(t, op, name, w.out.parseFailures))
  {
    RecordShows(cfg, w, op.source, AfterSource(HealthOf(w.state, op.source), w.out.parseFailures), op.now, name,
                AddOp(t, op, name, w.out.parseFailures));
    StepRecords(cfg, w, op);
  }

  // The two kinds of step that record health.
  lemma StepRecords(cfg: Config, w: World, op: Op)
    ensures op.DiscoverFailed? ==>
      var sh := AfterDiscoverFailure(HealthOf(w.state, op.source), op.error);
      Step(cfg, w, op) == RecordHealth(cfg, w, op.source, sh, op.now)
    ensures op.EndSource? ==>
      var sh := AfterSource(HealthOf(w.state, op.source), w.out.parseFailures);
      Step(cfg, w, op) == RecordHealth(cfg, w, op.source, sh, op.now)
  {
  }

  lemma AddOpIsOutcome(t: Tally, op: Op, name: string, failed: nat)
    ensures AddOutcomes(t, OutcomeOf(op, name, failed)) == AddOp(t, op, name, failed)
  {
    var o := OutcomeOf(op, name, failed);
    if o != [] {
      assert o[..|o| - 1] == [];
    }
  }

  lemma HealthAtStart(cfg: Config, rs: seq<PollRun>, name: string)
    requires cfg.healthThreshold >= 1 && rs == []
    ensures HealthAgrees(cfg, AfterRuns(cfg, STARTED, rs).state, RunOutcomes(cfg, STARTED, rs, name), name)
  {
  }

  // In every run, cancelled polls included, a source's status is the status of its failures since
  // its last fully clean poll.
  lemma {:induction false} HealthFollows(cfg: Config, rs: seq<PollRun>, name: string)
    requires cfg.healthThreshold >= 1
    ensures HealthAgrees(cfg, AfterRuns(cfg, STARTED, rs).state, RunOutcomes(cfg, STARTED, rs, name), name)
  {
    if rs == [] {
      HealthAtStart(cfg, rs, name);
    } else {
      var n := |rs| - 1;
      HealthFollows(cfg, rs[..n], name);
      var st := AfterRuns(cfg, STARTED, rs[..n]).state;
      var log, ops := RunOutcomes(cfg, STARTED, rs[..n], name), RunOps(cfg, st, rs[n]);
      HealthFollowsOps(cfg, World(st, EMPTY_OUTBOX), ops, FailuresSinceClean(log), name);
      AddOutcomesConcat(CLEAN, log, OutcomesOf(cfg, World(st, EMPTY_OUTBOX), ops, name));
      RunOpsAreTheRun(cfg, AfterRuns(cfg, STARTED, rs[..n]), rs[n]);
    }
  }

  // Follows the health events of one source; None when one repeats the status before it.
  function FollowHealth(s: HealthStatus, hs: seq<Health>, name: string): Option<HealthStatus> {
    if hs == [] then Some(s) else
      match FollowHealth(s, hs[..|hs| - 1], name)
      case None => None
      case Some(t) =>
        var h := hs[|hs| - 1];
        if h.source != name then Some(t) else if h.status == t then None else Some(h.status)
  }

  lemma {:induction false} RunFollowsHealth(cfg: Config, w: World, ops: seq<Op>, before: seq<Health>, name: string)
    requires FollowHealth(Healthy, before + w.out.health, name) == Some(HealthOf(w.state, name).status)
    ensures var w' := Run(cfg, w, ops);
            FollowHealth(Healthy, before + w'.out.health, name) == Some(HealthOf(w'.state, name).status)
  {
    if ops != [] {
      var n := |ops| - 1;
      RunFollowsHealth(cfg, w, ops[..n], before, name);
      StepFollowsHealth(cfg, Run(cfg, w, ops[..n]), ops[n], before, name);
    }
  }

  lemma RecordFollows(cfg: Config, w: World, source: string, sh: SourceHealth, now: Time, before: seq<Health>,
                      name: string)
    requires FollowHealth(Healthy, before + w.out.health, name) == Some(HealthOf(w.state, name).status)
    ensures var w' := RecordHealth(cfg, w, source, sh, now);
            FollowHealth(Healthy, before + w'.out.health, name) == Some(HealthOf(w'.state, name).status)
  {
    var w' := RecordHealth(cfg, w, source, sh, now);
    if w'.out.health != w.out.health {
      var h := w'.out.health[|w.out.health|];
      FollowHealthOne(before + w.out.health, h, name);
      Assoc(before, w.out.health, [h]);
    }
  }

  lemma FollowHealthOne(hs: seq<Health>, h: Health, name: string)
    requires FollowHealth(Healthy, hs, name).Some?
    ensures var t := FollowHealth(Healthy, hs, name).value;
            FollowHealth(Healthy, hs + [h], name)
            == if h.source != name then Some(t) else if h.status == t then None else Some(h.status)
  {
    assert (hs + [h])[..|hs + [h]| - 1] == hs;
  }

  lemma StepFollowsHealth(cfg: Config, w: World, op: Op, before: seq<Health>, name: string)
    requires FollowHealth(Healthy, before + w.out.health, name) == Some(HealthOf(w.state, name).status)
    ensures var w' := Step(cfg, w, op);
            FollowHealth(Healthy, before + w'.out.health, name) == Some(HealthOf(w'.state, name).status)
  {
    match op
    case DiscoverFailed(source, error, now) =>
      RecordFollows(cfg, w, source, AfterDiscoverFailure(HealthOf(w.state, source), error), now, before, name);
      StepRecords(cfg, w, op);
    case EndSource(source, now) =>
      RecordFollows(cfg, w, source, AfterSource(HealthOf(w.state, source), w.out.parseFailures), now, before, name);
      StepRecords(cfg, w, op);
    case _ =>
  }

  // No cancelled poll leaves the source with another status than it found.
  ghost predicate CancelledKeepHealth(cfg: Config, rs: seq<PollRun>, name: string) {
    rs != [] ==>
      && CancelledKeepHealth(cfg, rs[..|rs| - 1], name)
      && (rs[|rs| - 1].Cancelled? ==>
            HealthOf(AfterRuns(cfg, STARTED, rs).state, name).status
            == HealthOf(AfterRuns(cfg, STARTED, rs[..|rs| - 1]).state, name).status)
  }

  lemma CompletedFollowsHealth(cfg: Config, m: Monitoring, p: Poll, name: string)
    requires FollowHealth(Healthy, HealthsOf(m.sent), name) == Some(HealthOf(m.state, name).status)
    ensures var m' := AfterRun(cfg, m, Completed(p));
            FollowHealth(Healthy, HealthsOf(m'.sent), name) == Some(HealthOf(m'.state, name).status)
  {
    PollIsItsSteps(cfg, m.state, p);
    var before := HealthsOf(m.sent);
    assert before + EMPTY_OUTBOX.health == before;
    RunFollowsHealth(cfg, World(m.state, EMPTY_OUTBOX), PollOps(cfg, m.state, p), before, name);
    var out := AfterPoll(cfg, m.state, p).out;
    EmittedHealths(m.seqNo, out, p.clock.delta);
    HealthsConcat(m.sent, Emitted(m.seqNo, out, p.clock.delta));
  }

  // Replaying a source's health events from "healthy" gives its current status, no event repeating the status before
  // it, until a cancelled poll changes the status; and the first one that does breaks it.
  lemma {:induction false} HealthReplay(cfg: Config, rs: seq<PollRun>, name: string)
    requires rs != [] ==> CancelledKeepHealth(cfg, rs[..|rs| - 1], name)
    ensures var m := AfterRuns(cfg, STARTED, rs);
            FollowHealth(Healthy, HealthsOf(m.sent), name) == Some(HealthOf(m.state, name).status)
            <==> CancelledKeepHealth(cfg, rs, name)
  {
    if rs != [] {
      var n := |rs| - 1;
      HealthReplay(cfg, rs[..n], name);
      if rs[n].Completed? {
        CompletedFollowsHealth(cfg, AfterRuns(cfg, STARTED, rs[..n]), rs[n].poll, name);
      }
    }
  }
}
