/**
 What the three sweeps end and remove: exactly the sessions whose time is up, and with which events.
 */
module MonitorSweeps {
  import opened Wrappers
  import opened Session
  import opened Collections
  import opened MonitorSpec
  import opened MonitorInvariants
  import opened MonitorReports
  import opened MonitorHistory

  /******* Whose time is up *******/

  // An active session that has received data, but for longer than `threshold` none.
  predicate Overdue(s: SessionState, threshold: Duration, now: Time) {
    s.info.lifecycle == Active && s.info.lastDataReceivedAt != 0 && now - s.info.lastDataReceivedAt > threshold
  }

  // A terminal session completed at least `retention` ago.
  predicate Due(s: SessionState, retention: Duration, now: Time) {
    s.info.lifecycle == Terminal && s.completedAt.Some? && now - s.completedAt.value >= retention
  }

  // An active session with a slug a terminal subagent of some stored session reports.
  ghost predicate Outdone(s: SessionState, store: map<string, SessionState>) {
    && s.info.lifecycle == Active && s.info.slug != ""
    && exists k, sub :: k in store && sub in store[k].subagents && sub.activity == "terminal" && sub.slug == s.info.slug
  }

  // The session ended at `now`, with everything else as it was.
  function EndedAt(s: SessionState, now: Time): SessionState {
    Session(s.info.(lifecycle := Terminal), Some(now), s.subagents)
  }

  /******* Ending sessions *******/

  function EndEvent(s: SessionState, id: string, kind: LifecycleEventType, reason: string, now: Time): LifecycleEvent {
    LifecycleEvent(kind, id, s.info.source, Some(Active), Some(Terminal), now, reason)
  }

  // One event for each session of `over`, in the order of the visit.
  function EndEvents(store: map<string, SessionState>, order: seq<string>, over: set<string>, kind: LifecycleEventType,
                     reason: string, now: Time): seq<LifecycleEvent>
    requires over <= store.Keys
  {
    if order == [] then [] else
      var id := order[|order| - 1];
      EndEvents(store, order[..|order| - 1], over, kind, reason, now)
      + (if id in over then [EndEvent(store[id], id, kind, reason, now)] else [])
  }

  // The visited sessions of `over` are ended, with one event and one update each, and no other session is touched.
  ghost predicate Ended(w: World, w': World, order: seq<string>, over: set<string>, kind: LifecycleEventType,
                        reason: string, now: Time)
    requires over <= w.state.store.Keys
  {
    && w'.state.store.Keys == w.state.store.Keys
    && (forall id :: id in w.state.store ==>
          w'.state.store[id] == if id in order && id in over then EndedAt(w.state.store[id], now)
                                else w.state.store[id])
    && w'.out.lifecycles == w.out.lifecycles + EndEvents(w.state.store, order, over, kind, reason, now)
    && w'.state.removed == w.state.removed
  }

  ghost predicate EndStepped(w: World, w': World, id: string, ends: bool, kind: LifecycleEventType, reason: string,
                             now: Time)
  {
    if ends then
      && id in w.state.store
      && w'.state == w.state.(store := w.state.store[id := EndedAt(w.state.store[id], now)])
      && w'.out.lifecycles == w.out.lifecycles + [EndEvent(w.state.store[id], id, kind, reason, now)]
    else w' == w
  }

  lemma Assoc(a: seq<LifecycleEvent>, b: seq<LifecycleEvent>, c: seq<LifecycleEvent>)
    ensures (a + b) + c == a + (b + c)
    ensures c == [] ==> a + (b + c) == a + b
  {
  }

  lemma EndedNext(w: World, mid: World, w': World, order: seq<string>, over: set<string>, kind: LifecycleEventType,
                  reason: string, now: Time)
    requires order != [] && order[|order| - 1] !in order[..|order| - 1] && over <= w.state.store.Keys
    requires Ended(w, mid, order[..|order| - 1], over, kind, reason, now)
    requires EndStepped(mid, w', order[|order| - 1], order[|order| - 1] in over, kind, reason, now)
    ensures Ended(w, w', order, over, kind, reason, now)
  {
    var before, last := order[..|order| - 1], order[|order| - 1];
    assert forall id :: id in order <==> id in before || id == last;
    assert last in w.state.store ==> mid.state.store[last] == w.state.store[last];
    Assoc(w.out.lifecycles, EndEvents(w.state.store, before, over, kind, reason, now),
          if last in over then [EndEvent(w.state.store[last], last, kind, reason, now)] else []);
  }

  ghost predicate Distinct(order: seq<string>) {
    forall i, j :: 0 <= i < j < |order| ==> order[i] != order[j]
  }

  lemma LastIsNew(order: seq<string>)
    requires order != [] && Distinct(order)
    ensures Distinct(order[..|order| - 1]) && order[|order| - 1] !in order[..|order| - 1]
  {
  }

  /******* The stale sweep *******/

  const STALE_REASON: string := "no data received past stale threshold"

  function OverdueIn(store: map<string, SessionState>, threshold: Duration, now: Time): set<string> {
    set id | id in store && Overdue(store[id], threshold, now)
  }

  lemma StaleStep(cfg: Config, w: World, id: string, now: Time)
    ensures EndStepped(w, Step(cfg, w, StaleCheck(id, now)), id,
                       id in w.state.store && Overdue(w.state.store[id], cfg.staleThreshold, now),
                       EventStale, STALE_REASON, now)
  {
  }

  // The stale sweep ends exactly the overdue sessions among those it visits.
  lemma {:induction false} StaleSweepExact(cfg: Config, w: World, order: seq<string>, now: Time)
    requires cfg.staleThreshold > 0 && Distinct(order)
    ensures Ended(w, Run(cfg, w, StaleOps(cfg, order, now)), order, OverdueIn(w.state.store, cfg.staleThreshold, now),
                  EventStale, STALE_REASON, now)
    decreases |order|
  {
    var over := OverdueIn(w.state.store, cfg.staleThreshold, now);
    if order == [] {
      assert EndEvents(w.state.store, order, over, EventStale, STALE_REASON, now) == [];
    } else {
      var n, ops := |order| - 1, StaleOps(cfg, order, now);
      assert ops[..n] == StaleOps(cfg, order[..n], now);
      LastIsNew(order);
      StaleSweepExact(cfg, w, order[..n], now);
      StaleStep(cfg, Run(cfg, w, ops[..n]), order[n], now);
      EndedNext(w, Run(cfg, w, ops[..n]), Run(cfg, w, ops), order, over, EventStale, STALE_REASON, now);
    }
  }

  /******* The completion sweep *******/

  const SLUG_REASON: string := "parent reported subagent completion"

  ghost function OutdoneIn(store: map<string, SessionState>): set<string> {
    set id | id in store && Outdone(store[id], store)
  }

  lemma SlugStep(cfg: Config, w: World, id: string, slugs: set<string>, now: Time)
    ensures EndStepped(w, Step(cfg, w, SlugCheck(id, slugs, now)), id,
                       && id in w.state.store && w.state.store[id].info.lifecycle == Active
                       && w.state.store[id].info.slug != "" && w.state.store[id].info.slug in slugs,
                       EventTerminal, SLUG_REASON, now)
  {
  }

  // The slugs are those of the terminal subagents.
  lemma CompletedSlugsAre(store: map<string, SessionState>, slug: string)
    ensures slug in CompletedSlugs(store) <==>
            && slug != ""
            && exists k, sub ::
                 k in store && sub in store[k].subagents && sub.activity == "terminal" && sub.slug == slug
  {
    if k :| k in store && slug in SlugsOf(store[k].subagents) {
      var i :| 0 <= i < |store[k].subagents| && MarksSlug(store[k].subagents[i], slug);
      assert store[k].subagents[i] in store[k].subagents;
    }
    if k, sub :|
      k in store && sub in store[k].subagents && sub.activity == "terminal" && sub.slug == slug && slug != ""
    {
      var i :| 0 <= i < |store[k].subagents| && store[k].subagents[i] == sub;
      assert MarksSlug(store[k].subagents[i], sub.slug);
      assert slug in SlugsOf(store[k].subagents);
    }
  }

  // The completion sweep ends exactly the sessions that are outdone when it starts.
  lemma {:induction false} SlugSweepExact(cfg: Config, w: World, order: seq<string>, now: Time)
    requires Distinct(order) && CompletedSlugs(w.state.store) != {}
    ensures Ended(w, Run(cfg, w, SlugOps(CompletedSlugs(w.state.store), order, now)), order, OutdoneIn(w.state.store),
                  EventTerminal, SLUG_REASON, now)
    decreases |order|
  {
    var over, slugs := OutdoneIn(w.state.store), CompletedSlugs(w.state.store);
    if order == [] {
      assert EndEvents(w.state.store, order, over, EventTerminal, SLUG_REASON, now) == [];
    } else {
      var n, ops := |order| - 1, SlugOps(slugs, order, now);
      assert ops[..n] == SlugOps(slugs, order[..n], now);
      LastIsNew(order);
      SlugSweepExact(cfg, w, order[..n], now);
      SlugStep(cfg, Run(cfg, w, ops[..n]), order[n], slugs, now);
      if order[n] in w.state.store {
        CompletedSlugsAre(w.state.store, w.state.store[order[n]].info.slug);
      }
      EndedNext(w, Run(cfg, w, ops[..n]), Run(cfg, w, ops), order, over, EventTerminal, SLUG_REASON, now);
    }
  }

  /******* The retention sweep *******/

  function DueIn(store: map<string, SessionState>, retention: Duration, now: Time): set<string> {
    set id | id in store && Due(store[id], retention, now)
  }

  // Those of `ids` that are in `some`, in order.
  function Those(order: seq<string>, some: set<string>): seq<string> {
    if order == [] then [] else
      var id := order[|order| - 1];
      Those(order[..|order| - 1], some) + (if id in some then [id] else [])
  }

  function RemovedEvents(store: map<string, SessionState>, order: seq<string>, due: set<string>,
                         now: Time): seq<LifecycleEvent>
    requires due <= store.Keys
  {
    if order == [] then [] else
      var id := order[|order| - 1];
      RemovedEvents(store, order[..|order| - 1], due, now)
      + (if id in due then [RemovedEvent(store[id], id, now)] else [])
  }

  function RemovedEvent(s: SessionState, id: string, now: Time): LifecycleEvent {
    LifecycleEvent(EventRemoved, id, s.info.source, Some(Terminal), None, now, "retention expired")
  }

  // The visited sessions of `due` are removed and marked, and no other session is touched.
  ghost predicate Dropped(w: World, w': World, order: seq<string>, due: set<string>, now: Time)
    requires due <= w.state.store.Keys
  {
    && (forall id :: id in w'.state.store <==> id in w.state.store && !(id in order && id in due))
    && (forall id :: id in w'.state.store ==> w'.state.store[id] == w.state.store[id])
    && (forall id :: id in w'.state.removed <==> id in w.state.removed || (id in order && id in due))
    && w'.out.removed == w.out.removed + Those(order, due)
    && w'.out.lifecycles == w.out.lifecycles + RemovedEvents(w.state.store, order, due, now)
  }

  ghost predicate DropStepped(w: World, w': World, id: string, drops: bool, now: Time) {
    if drops then
      && id in w.state.store
      && w'.state == w.state.(store := w.state.store - {id}, removed := w.state.removed + {id})
      && w'.out.removed == w.out.removed + [id]
      && w'.out.lifecycles == w.out.lifecycles + [RemovedEvent(w.state.store[id], id, now)]
    else w' == w
  }

  lemma RetentionStep(cfg: Config, w: World, id: string, now: Time)
    ensures DropStepped(w, Step(cfg, w, RetentionCheck(id, now)), id,
                        id in w.state.store && Due(w.state.store[id], cfg.completionRetention, now), now)
  {
  }

  lemma AssocIDs(a: seq<string>, b: seq<string>, c: seq<string>)
    ensures (a + b) + c == a + (b + c)
    ensures c == [] ==> a + (b + c) == a + b
  {
  }

  lemma DroppedNext(w: World, mid: World, w': World, order: seq<string>, due: set<string>, now: Time)
    requires order != [] && order[|order| - 1] !in order[..|order| - 1] && due <= w.state.store.Keys
    requires Dropped(w, mid, order[..|order| - 1], due, now)
    requires DropStepped(mid, w', order[|order| - 1], order[|order| - 1] in due, now)
    ensures Dropped(w, w', order, due, now)
  {
    var before, last := order[..|order| - 1], order[|order| - 1];
    assert forall id :: id in order <==> id in before || id == last;
    AssocIDs(w.out.removed, Those(before, due), if last in due then [last] else []);
    Assoc(w.out.lifecycles, RemovedEvents(w.state.store, before, due, now),
          if last in due then [RemovedEvent(w.state.store[last], last, now)] else []);
  }

  // The retention sweep removes exactly the sessions that are due.
  lemma {:induction false} RetentionSweepExact(cfg: Config, w: World, order: seq<string>, now: Time)
    requires Distinct(order)
    ensures Dropped(w, Run(cfg, w, RetentionOps(order, now)), order,
                    DueIn(w.state.store, cfg.completionRetention, now), now)
    decreases |order|
  {
    var due := DueIn(w.state.store, cfg.completionRetention, now);
    if order == [] {
      assert RemovedEvents(w.state.store, order, due, now) == [] && Those(order, due) == [];
    } else {
      var n, ops := |order| - 1, RetentionOps(order, now);
      assert ops[..n] == RetentionOps(order[..n], now);
      LastIsNew(order);
      RetentionSweepExact(cfg, w, order[..n], now);
      RetentionStep(cfg, Run(cfg, w, ops[..n]), order[n], now);
      DroppedNext(w, Run(cfg, w, ops[..n]), Run(cfg, w, ops), order, due, now);
    }
  }

  /******* A poll *******/

  ghost predicate EndsThose(a: map<string, SessionState>, b: map<string, SessionState>, over: set<string>, now: Time) {
    && b.Keys == a.Keys
    && forall id :: id in a ==> b[id] == if id in over then EndedAt(a[id], now) else a[id]
  }

  // Over one completed poll: the stale sweep ends exactly the overdue sessions, if there is a threshold; the completion
  // sweep exactly those outdone then; and the retention sweep removes exactly those due then.
  lemma PollSweeps(cfg: Config, st: State, p: Poll)
    requires OrdersOk(cfg, st, p)
    ensures var a, b := BeforeStale(cfg, st, p).state, BeforeSlug(cfg, st, p).state;
            EndsThose(a.store, b.store,
                      if cfg.staleThreshold > 0 then OverdueIn(a.store, cfg.staleThreshold, p.clock.stale) else {},
                      p.clock.stale)
    ensures var b, c := BeforeSlug(cfg, st, p).state, BeforeRetention(cfg, st, p).state;
            EndsThose(b.store, c.store, OutdoneIn(b.store), p.clock.slug)
    ensures var c, d := BeforeRetention(cfg, st, p).state, AfterPoll(cfg, st, p).state;
            var due := DueIn(c.store, cfg.completionRetention, p.clock.retention);
            d.store == c.store - due && d.removed == c.removed + due
  {
    var a, b, c := BeforeStale(cfg, st, p), BeforeSlug(cfg, st, p), BeforeRetention(cfg, st, p);
    if cfg.staleThreshold > 0 {
      StaleSweepExact(cfg, a, p.orders.stale, p.clock.stale);
    }
    if CompletedSlugs(b.state.store) != {} {
      SlugSweepExact(cfg, b, p.orders.slug, p.clock.slug);
    } else {
      NobodyOutdone(b.state.store);
    }
    RetentionSweepExact(cfg, c, p.orders.retention, p.clock.retention);
    VisitedAreDropped(c, AfterPoll(cfg, st, p), p.orders.retention,
                      DueIn(c.state.store, cfg.completionRetention, p.clock.retention), p.clock.retention);
  }

  lemma NobodyOutdone(store: map<string, SessionState>)
    requires CompletedSlugs(store) == {}
    ensures OutdoneIn(store) == {}
  {
    forall id | id in store ensures !Outdone(store[id], store) {
      CompletedSlugsAre(store, store[id].info.slug);
    }
  }

  lemma VisitedAreDropped(w: World, w': World, order: seq<string>, due: set<string>, now: Time)
    requires Visits(order, w.state.store.Keys) && due <= w.state.store.Keys && Dropped(w, w', order, due, now)
    ensures w'.state.store == w.state.store - due && w'.state.removed == w.state.removed + due
  {
    assert forall id :: id in due ==> id in order;
  }

  /******* Who is sent as stale *******/

  ghost predicate SaysStale(evs: seq<LifecycleEvent>, id: string) {
    exists e :: e in evs && e.kind == EventStale && e.sessionID == id
  }

  lemma SaysStaleConcat(a: seq<LifecycleEvent>, b: seq<LifecycleEvent>, id: string)
    ensures SaysStale(a + b, id) <==> SaysStale(a, id) || SaysStale(b, id)
  {
    forall e ensures e in a + b <==> e in a || e in b {
    }
  }

  lemma {:induction false} EndEventsSay(store: map<string, SessionState>, order: seq<string>, over: set<string>,
                                        kind: LifecycleEventType, reason: string, now: Time, id: string)
    requires over <= store.Keys
    ensures SaysStale(EndEvents(store, order, over, kind, reason, now), id)
       <==> kind == EventStale && id in order && id in over
  {
    if order != [] {
      var n := |order| - 1;
      EndEventsSay(store, order[..n], over, kind, reason, now, id);
      var last := if order[n] in over then [EndEvent(store[order[n]], order[n], kind, reason, now)] else [];
      SaysStaleConcat(EndEvents(store, order[..n], over, kind, reason, now), last, id);
      assert id in order <==> id in order[..n] || id == order[n];
      assert order[n] in over ==> last[0] in last;
    }
  }

  lemma {:induction false} RemovedEventsSay(store: map<string, SessionState>, order: seq<string>, due: set<string>,
                                            now: Time, id: string)
    requires due <= store.Keys
    ensures !SaysStale(RemovedEvents(store, order, due, now), id)
  {
    if order != [] {
      var n := |order| - 1;
      RemovedEventsSay(store, order[..n], due, now, id);
      SaysStaleConcat(RemovedEvents(store, order[..n], due, now),
                      if order[n] in due then [RemovedEvent(store[order[n]], order[n], now)] else [], id);
    }
  }

  lemma SourceStepSays(cfg: Config, w: World, op: Op, id: string)
    requires !IsSweepOp(op) && !SaysStale(w.out.lifecycles, id)
    ensures !SaysStale(Step(cfg, w, op).out.lifecycles, id)
  {
    match op
    case ParseHandle(source, h, parse, now) =>
      var r := parse(CursorAt(w.state, CursorKey(source, h.id)));
      if r.Parsed? && r.update.info.sessionID != "" {
        SaysStaleConcat(w.out.lifecycles, [CommitEvent(w.state, h, r.update.info, now)], id);
      }
    case _ =>
  }

  lemma {:induction false} SourceStepsSay(cfg: Config, w: World, ops: seq<Op>, id: string)
    requires !SaysStale(w.out.lifecycles, id) && forall i :: 0 <= i < |ops| ==> !IsSweepOp(ops[i])
    ensures !SaysStale(Run(cfg, w, ops).out.lifecycles, id)
  {
    if ops != [] {
      SourceStepsSay(cfg, w, ops[..|ops| - 1], id);
      SourceStepSays(cfg, Run(cfg, w, ops[..|ops| - 1]), ops[|ops| - 1], id);
    }
  }

  // A poll says a session is stale if and only if it is overdue when the stale sweep starts.
  lemma PollSays(cfg: Config, st: State, p: Poll, id: string)
    requires OrdersOk(cfg, st, p)
    ensures var a := BeforeStale(cfg, st, p).state;
            SaysStale(AfterPoll(cfg, st, p).out.lifecycles, id)
            <==> cfg.staleThreshold > 0 && id in a.store && Overdue(a.store[id], cfg.staleThreshold, p.clock.stale)
  {
    var a, b, c := BeforeStale(cfg, st, p), BeforeSlug(cfg, st, p), BeforeRetention(cfg, st, p);
    SourcesOpsAreNoSweeps(p.script);
    SourceStepsSay(cfg, World(st, EMPTY_OUTBOX), SourcesOps(p.script), id);
    StaleSays(cfg, a, p.orders.stale, p.clock.stale, id);
    SlugSays(cfg, b, p.orders.slug, p.clock.slug, id);
    var due := DueIn(c.state.store, cfg.completionRetention, p.clock.retention);
    RetentionSweepExact(cfg, c, p.orders.retention, p.clock.retention);
    RemovedEventsSay(c.state.store, p.orders.retention, due, p.clock.retention, id);
    SaysStaleConcat(c.out.lifecycles, RemovedEvents(c.state.store, p.orders.retention, due, p.clock.retention), id);
  }

  lemma StaleSays(cfg: Config, w: World, order: seq<string>, now: Time, id: string)
    requires !SaysStale(w.out.lifecycles, id) && Visits(order, w.state.store.Keys)
    ensures SaysStale(Run(cfg, w, StaleOps(cfg, order, now)).out.lifecycles, id)
       <==> cfg.staleThreshold > 0 && id in w.state.store && Overdue(w.state.store[id], cfg.staleThreshold, now)
  {
    if cfg.staleThreshold > 0 {
      var over := OverdueIn(w.state.store, cfg.staleThreshold, now);
      StaleSweepExact(cfg, w, order, now);
      EndEventsSay(w.state.store, order, over, EventStale, STALE_REASON, now, id);
      SaysStaleConcat(w.out.lifecycles, EndEvents(w.state.store, order, over, EventStale, STALE_REASON, now), id);
    }
  }

  lemma SlugSays(cfg: Config, w: World, order: seq<string>, now: Time, id: string)
    requires CompletedSlugs(w.state.store) != {} ==> Visits(order, w.state.store.Keys)
    ensures SaysStale(Run(cfg, w, SlugOps(CompletedSlugs(w.state.store), order, now)).out.lifecycles, id)
       <==> SaysStale(w.out.lifecycles, id)
  {
    if CompletedSlugs(w.state.store) != {} {
      var over := OutdoneIn(w.state.store);
      SlugSweepExact(cfg, w, order, now);
      EndEventsSay(w.state.store, order, over, EventTerminal, SLUG_REASON, now, id);
      SaysStaleConcat(w.out.lifecycles, EndEvents(w.state.store, order, over, EventTerminal, SLUG_REASON, now), id);
    }
  }

  // The updates of a session by the time a poll that follows some runs starts its stale sweep.
  function HistoryAtSweep(cfg: Config, rs: seq<PollRun>, p: Poll, id: string): seq<Commitment> {
    var w := World(AfterRuns(cfg, STARTED, rs).state, EMPTY_OUTBOX);
    AfterSteps(cfg, w, SourcesOps(p.script), id, History(cfg, rs, id))
  }

  // The last of them came, on the clock of that sweep, longer ago than a positive threshold.
  predicate OutOfData(cfg: Config, log: seq<Commitment>, now: Time) {
    cfg.staleThreshold > 0 && log != [] && log[|log| - 1].at != 0 && now - log[|log| - 1].at > cfg.staleThreshold
  }

  // After any runs, a completed poll says a session is stale if and only if it is active and out of data.
  lemma StaleIff(cfg: Config, rs: seq<PollRun>, p: Poll, id: string)
    requires OrdersOk(cfg, AfterRuns(cfg, STARTED, rs).state, p)
    ensures var m := AfterRuns(cfg, STARTED, rs);
            SaysStale(LifecyclesOf(Emitted(m.seqNo, AfterPoll(cfg, m.state, p).out, p.clock.delta)), id)
            <==> IsLive(BeforeStale(cfg, m.state, p).state, id)
                 && OutOfData(cfg, HistoryAtSweep(cfg, rs, p, id), p.clock.stale)
  {
    var m := AfterRuns(cfg, STARTED, rs);
    LastWriter(cfg, rs, id);
    StepsTold(cfg, World(m.state, EMPTY_OUTBOX), SourcesOps(p.script), id, History(cfg, rs, id));
    PollSays(cfg, m.state, p, id);
    EmittedLifecycles(m.seqNo, AfterPoll(cfg, m.state, p).out, p.clock.delta);
  }

  // At no stale sweep of the runs is the session out of data.
  ghost predicate DataInTime(cfg: Config, rs: seq<PollRun>, id: string) {
    rs != [] ==>
      var n := |rs| - 1;
      && DataInTime(cfg, rs[..n], id)
      && (rs[n].Completed? ==>
            !OutOfData(cfg, HistoryAtSweep(cfg, rs[..n], rs[n].poll, id), rs[n].poll.clock.stale))
  }

  // A session given data at least once per threshold before each stale sweep is never sent as stale.
  lemma {:induction false} NeverStale(cfg: Config, rs: seq<PollRun>, id: string)
    requires RunsOk(cfg, STARTED, rs) && DataInTime(cfg, rs, id)
    ensures !SaysStale(LifecyclesOf(AfterRuns(cfg, STARTED, rs).sent), id)
  {
    if rs == [] {
      assert LifecyclesOf([]) == [];
    } else {
      var n := |rs| - 1;
      NeverStale(cfg, rs[..n], id);
      if rs[n].Completed? {
        var m, p := AfterRuns(cfg, STARTED, rs[..n]), rs[n].poll;
        var evs := Emitted(m.seqNo, AfterPoll(cfg, m.state, p).out, p.clock.delta);
        StaleIff(cfg, rs[..n], p, id);
        LifecyclesConcat(m.sent, evs);
        SaysStaleConcat(LifecyclesOf(m.sent), LifecyclesOf(evs), id);
      }
    }
  }
}
