/**
 A client that starts from a snapshot and applies deltas holds the monitor's store.
 */
module MonitorReplay {
  import opened Wrappers
  import opened Session
  import opened MonitorSpec
  import opened MonitorInvariants

  // The client side: updates in order, each replacing the session with its ID, then the removals.
  function ApplyUpdates(client: map<string, SessionState>, us: seq<SessionState>): map<string, SessionState> {
    if us == [] then client else ApplyUpdates(client, us[..|us| - 1])[us[|us| - 1].info.id := us[|us| - 1]]
  }

  function ApplyRemoved(client: map<string, SessionState>, ids: seq<string>): map<string, SessionState> {
    if ids == [] then client else ApplyRemoved(client, ids[..|ids| - 1]) - {ids[|ids| - 1]}
  }

  function Receive(client: map<string, SessionState>, ev: Event): map<string, SessionState> {
    match ev.payload
    case DeltaPayload(updates, removed) => ApplyRemoved(ApplyUpdates(client, updates), removed)
    case _ => client
  }

  function ReceiveAll(client: map<string, SessionState>, evs: seq<Event>): map<string, SessionState> {
    if evs == [] then client else Receive(ReceiveAll(client, evs[..|evs| - 1]), evs[|evs| - 1])
  }

  lemma {:induction false} ReceiveConcat(client: map<string, SessionState>, a: seq<Event>, b: seq<Event>)
    ensures ReceiveAll(client, a + b) == ReceiveAll(ReceiveAll(client, a), b)
  {
    if b == [] {
      assert a + b == a;
    } else {
      assert (a + b)[..|a + b| - 1] == a + b[..|b| - 1];
      ReceiveConcat(client, a, b[..|b| - 1]);
    }
  }

  lemma {:induction false} ReceiveNoDelta(client: map<string, SessionState>, evs: seq<Event>)
    requires forall i :: 0 <= i < |evs| ==> !evs[i].payload.DeltaPayload?
    ensures ReceiveAll(client, evs) == client
  {
    if evs != [] {
      ReceiveNoDelta(client, evs[..|evs| - 1]);
    }
  }

  // The events of a poll act on a client like the delta they carry.
  lemma ReceiveEmitted(client: map<string, SessionState>, seqNo: nat, out: Outbox, now: Time)
    ensures ReceiveAll(client, Emitted(seqNo, out, now))
         == ApplyRemoved(ApplyUpdates(client, out.updates), out.removed)
  {
    var ls := LifecycleEvents(seqNo, out.lifecycles);
    var ds := DeltaEvents(seqNo + |ls|, out, now);
    var hs := HealthEvents(seqNo + |ls| + |ds|, out.health);
    ReceiveConcat(client, ls, ds);
    ReceiveConcat(client, ls + ds, hs);
    ReceiveNoDelta(client, ls);
    ReceiveNoDelta(ReceiveAll(client, ls + ds), hs);
    ReceiveDelta(client, seqNo + |ls|, out, now);
  }

  lemma ReceiveDelta(client: map<string, SessionState>, seqNo: nat, out: Outbox, now: Time)
    ensures ReceiveAll(client, DeltaEvents(seqNo, out, now))
         == ApplyRemoved(ApplyUpdates(client, out.updates), out.removed)
  {
    var ds := DeltaEvents(seqNo, out, now);
    if ds != [] {
      assert ds[..|ds| - 1] == [];
    }
  }

  /******* Both orders of application *******/

  // The last update of each session in the list.
  function Newest(us: seq<SessionState>): map<string, SessionState> {
    ApplyUpdates(map[], us)
  }

  function Elements(ids: seq<string>): set<string> {
    set i | 0 <= i < |ids| :: ids[i]
  }

  lemma {:induction false} ApplyIsNewest(client: map<string, SessionState>, us: seq<SessionState>)
    ensures ApplyUpdates(client, us) == client + Newest(us)
  {
    if us != [] {
      ApplyIsNewest(client, us[..|us| - 1]);
    }
  }

  lemma {:induction false} RemovedIsMinus(client: map<string, SessionState>, ids: seq<string>)
    ensures ApplyRemoved(client, ids) == client - Elements(ids)
  {
    if ids != [] {
      var n := |ids| - 1;
      RemovedIsMinus(client, ids[..n]);
      assert Elements(ids) == Elements(ids[..n]) + {ids[n]};
    }
  }

  lemma {:induction false} NewestConcat(a: seq<SessionState>, b: seq<SessionState>)
    ensures Newest(a + b) == Newest(a) + Newest(b)
  {
    if b == [] {
      assert a + b == a;
    } else {
      assert (a + b)[..|a + b| - 1] == a + b[..|b| - 1];
      NewestConcat(a, b[..|b| - 1]);
    }
  }

  /******* The outbox mirrors every write *******/

  // The store is what it was, with the collected updates, without the collected removals.
  ghost predicate Mirrors(start: map<string, SessionState>, w: World) {
    w.state.store == (start + Newest(w.out.updates)) - Elements(w.out.removed)
  }

  // Removals come last in a poll.
  ghost predicate RemovalsLast(ops: seq<Op>) {
    forall i, j :: 0 <= i < j < |ops| && ops[i].RetentionCheck? ==> ops[j].RetentionCheck?
  }

  lemma NewestSnoc(us: seq<SessionState>, s: SessionState)
    ensures Newest(us + [s]) == Newest(us)[s.info.id := s]
  {
    assert (us + [s])[..|us + [s]| - 1] == us;
  }

  lemma ElementsSnoc(ids: seq<string>, id: string)
    ensures Elements(ids + [id]) == Elements(ids) + {id}
  {
    assert forall i :: 0 <= i < |ids| ==> (ids + [id])[i] == ids[i];
    assert (ids + [id])[|ids|] == id;
  }

  // What one step does to store and outbox together.
  ghost predicate Writes(w: World, w': World) {
    || (w'.state.store == w.state.store && w'.out.updates == w.out.updates && w'.out.removed == w.out.removed)
    || (exists s :: WritesUpdate(w, w', s))
    || (exists id :: WritesRemoval(w, w', id))
  }

  ghost predicate WritesUpdate(w: World, w': World, s: SessionState) {
    && w'.state.store == w.state.store[s.info.id := s]
    && w'.out.updates == w.out.updates + [s] && w'.out.removed == w.out.removed
  }

  ghost predicate WritesRemoval(w: World, w': World, id: string) {
    && w'.state.store == w.state.store - {id}
    && w'.out.updates == w.out.updates && w'.out.removed == w.out.removed + [id]
  }

  lemma CommitWrites(w: World, source: string, h: SessionHandle, u: Update, cursor: Cursor, now: Time)
    requires Inv(w.state)
    ensures exists s :: WritesUpdate(w, Commit(w, source, h, u, cursor, now), s)
  {
    assert Updated(w.state, h, u, now).info.id == h.id;
    assert WritesUpdate(w, Commit(w, source, h, u, cursor, now), Updated(w.state, h, u, now));
  }

  lemma StepWrites(cfg: Config, w: World, op: Op)
    requires Inv(w.state)
    ensures Writes(w, Step(cfg, w, op))
    ensures Step(cfg, w, op).out.updates != w.out.updates ==> !op.RetentionCheck?
    ensures Step(cfg, w, op).out.removed != w.out.removed ==> op.RetentionCheck?
  {
    var w' := Step(cfg, w, op);
    match op
    case ParseHandle(source, h, parse, now) =>
      var r := parse(CursorAt(w.state, CursorKey(source, h.id)));
      if r.Parsed? && r.update.info.sessionID != "" {
        CommitWrites(w, source, h, r.update, r.cursor, now);
      }
    case StaleCheck(id, _) => assert w' == w || WritesUpdate(w, w', w'.state.store[id]);
    case SlugCheck(id, _, _) => assert w' == w || WritesUpdate(w, w', w'.state.store[id]);
    case RetentionCheck(id, _) => assert w' == w || WritesRemoval(w, w', id);
    case _ =>
  }

  lemma StepMirrors(cfg: Config, start: map<string, SessionState>, w: World, op: Op)
    requires Inv(w.state) && Mirrors(start, w)
    requires w.out.removed != [] ==> op.RetentionCheck?
    ensures Mirrors(start, Step(cfg, w, op))
  {
    var w' := Step(cfg, w, op);
    StepWrites(cfg, w, op);
    if s :| WritesUpdate(w, w', s) {
      NewestSnoc(w.out.updates, s);
      assert w'.out.updates != w.out.updates;
      assert w.out.removed == [] && Elements(w.out.removed) == {};
      PutAfterMerge(start, Newest(w.out.updates), s.info.id, s);
    } else if id :| WritesRemoval(w, w', id) {
      ElementsSnoc(w.out.removed, id);
      MinusMinus(start + Newest(w.out.updates), Elements(w.out.removed), id);
    }
  }

  lemma PutAfterMerge<K, V>(a: map<K, V>, b: map<K, V>, k: K, v: V)
    ensures ((a + b) - {})[k := v] == (a + b[k := v]) - {}
  {
  }

  lemma MinusMinus<K, V>(a: map<K, V>, ks: set<K>, k: K)
    ensures (a - ks) - {k} == a - (ks + {k})
  {
  }

  // Merging again what is already merged, and removing again, changes nothing.
  lemma MergeAgain<K, V>(start: map<K, V>, a: map<K, V>, b: map<K, V>, early: set<K>, all: set<K>)
    requires early <= all
    ensures ((start + a) - early + (a + b)) - all == (start + (a + b)) - all
  {
  }

  // `w` has collected no removal unless a retention check has run.
  lemma {:induction false} RunMirrors(cfg: Config, w: World, ops: seq<Op>)
    requires Inv(w.state) && w.out.updates == [] && w.out.removed == [] && RemovalsLast(ops)
    ensures Mirrors(w.state.store, Run(cfg, w, ops))
    ensures Run(cfg, w, ops).out.removed != [] ==> ops != [] && ops[|ops| - 1].RetentionCheck?
  {
    if ops != [] {
      var n := |ops| - 1;
      RunMirrors(cfg, w, ops[..n]);
      RunKeepsInv(cfg, w, ops[..n]);
      StepWrites(cfg, Run(cfg, w, ops[..n]), ops[n]);
      StepMirrors(cfg, w.state.store, Run(cfg, w, ops[..n]), ops[n]);
    }
  }

  // The outbox only grows.
  lemma {:induction false} RunGrows(cfg: Config, w: World, ops: seq<Op>)
    requires Inv(w.state)
    ensures w.out.updates <= Run(cfg, w, ops).out.updates && w.out.removed <= Run(cfg, w, ops).out.removed
  {
    if ops != [] {
      var n := |ops| - 1;
      RunGrows(cfg, w, ops[..n]);
      RunKeepsInv(cfg, w, ops[..n]);
      StepWrites(cfg, Run(cfg, w, ops[..n]), ops[n]);
    }
  }

  lemma PollRemovesLast(cfg: Config, st: State, p: Poll)
    ensures RemovalsLast(PollOps(cfg, st, p))
  {
    SourcesOpsAreNoSweeps(p.script);
    var ops := PollOps(cfg, st, p);
    var n := |ops| - |p.orders.retention|;
    assert forall i :: 0 <= i < |SourcesOps(p.script)| ==> ops[i] in SourcesOps(p.script);
    assert forall i :: 0 <= i < |ops| ==> (ops[i].RetentionCheck? <==> i >= n);
  }

  /******* Replay *******/

  // A snapshot after any number of steps of a poll, plus the delta of that poll, is the final store.
  lemma ReplayMidPoll(cfg: Config, st: State, p: Poll, k: nat)
    requires Inv(st) && k <= |PollOps(cfg, st, p)|
    ensures var w := World(st, EMPTY_OUTBOX);
            var snapshot := Run(cfg, w, PollOps(cfg, st, p)[..k]).state.store;
            var end := AfterPoll(cfg, st, p);
            ApplyRemoved(ApplyUpdates(snapshot, end.out.updates), end.out.removed) == end.state.store
  {
    var w, ops := World(st, EMPTY_OUTBOX), PollOps(cfg, st, p);
    PollIsItsSteps(cfg, st, p);
    PollRemovesLast(cfg, st, p);
    assert ops == ops[..k] + ops[k..];
    ReplayMidRun(cfg, w, ops[..k], ops[k..]);
  }

  lemma ReplayMidRun(cfg: Config, w: World, a: seq<Op>, b: seq<Op>)
    requires Inv(w.state) && w.out.updates == [] && w.out.removed == [] && RemovalsLast(a + b)
    ensures var end := Run(cfg, w, a + b);
            ApplyRemoved(ApplyUpdates(Run(cfg, w, a).state.store, end.out.updates), end.out.removed) == end.state.store
  {
    var mid, end := Run(cfg, w, a), Run(cfg, w, a + b);
    assert RemovalsLast(a) by {
      assert forall i :: 0 <= i < |a| ==> (a + b)[i] == a[i];
    }
    RunMirrors(cfg, w, a);
    RunMirrors(cfg, w, a + b);
    RunConcat(cfg, w, a, b);
    RunKeepsInv(cfg, w, a);
    RunGrows(cfg, mid, b);
    ApplyIsNewest(mid.state.store, end.out.updates);
    RemovedIsMinus(mid.state.store + Newest(end.out.updates), end.out.removed);
    var later := end.out.updates[|mid.out.updates|..];
    assert end.out.updates == mid.out.updates + later;
    NewestConcat(mid.out.updates, later);
    assert Elements(mid.out.removed) <= Elements(end.out.removed) by {
      assert forall i :: 0 <= i < |mid.out.removed| ==> end.out.removed[i] == mid.out.removed[i];
    }
    MergeAgain(w.state.store, Newest(mid.out.updates), Newest(later),
               Elements(mid.out.removed), Elements(end.out.removed));
  }

  function StoreAfter(cfg: Config, st: State, p: Poll, k: nat): map<string, SessionState>
    requires k <= |PollOps(cfg, st, p)|
  {
    Run(cfg, World(st, EMPTY_OUTBOX), PollOps(cfg, st, p)[..k]).state.store
  }

  lemma ReplayOnePoll(cfg: Config, m: Monitoring, p: Poll, k: nat)
    requires Inv(m.state) && k <= |PollOps(cfg, m.state, p)|
    ensures var end := AfterRun(cfg, m, Completed(p));
            && m.sent <= end.sent
            && ReceiveAll(StoreAfter(cfg, m.state, p, k), end.sent[|m.sent|..]) == end.state.store
  {
    var out := AfterPoll(cfg, m.state, p).out;
    var evs := Emitted(m.seqNo, out, p.clock.delta);
    assert AfterRun(cfg, m, Completed(p)).sent[|m.sent|..] == evs;
    ReplayMidPoll(cfg, m.state, p, k);
    ReceiveEmitted(StoreAfter(cfg, m.state, p, k), m.seqNo, out, p.clock.delta);
  }

  // The events after `cut` continue the ones up to it.
  lemma ReplayContinues(snapshot: map<string, SessionState>, sent: seq<Event>, start: nat, cut: nat)
    requires start <= cut <= |sent|
    ensures ReceiveAll(snapshot, sent[start..]) == ReceiveAll(ReceiveAll(snapshot, sent[..cut][start..]), sent[cut..])
  {
    assert sent[start..] == sent[..cut][start..] + sent[cut..];
    ReceiveConcat(snapshot, sent[..cut][start..], sent[cut..]);
  }

  // A client takes a snapshot at any step of a poll, from any state a run can reach, and applies
  // everything sent from that poll on: after each later completed poll it holds the store.
  lemma {:induction false} DeltaReplay(cfg: Config, m: Monitoring, p: Poll, k: nat, later: seq<PollRun>)
    requires Inv(m.state) && k <= |PollOps(cfg, m.state, p)| && AllCompleted(later)
    ensures var end := AfterRuns(cfg, AfterRun(cfg, m, Completed(p)), later);
            && m.sent <= end.sent
            && ReceiveAll(StoreAfter(cfg, m.state, p, k), end.sent[|m.sent|..]) == end.state.store
    decreases |later|
  {
    var snapshot, first := StoreAfter(cfg, m.state, p, k), AfterRun(cfg, m, Completed(p));
    if later == [] {
      ReplayOnePoll(cfg, m, p, k);
    } else {
      var n := |later| - 1;
      var prev, q := AfterRuns(cfg, first, later[..n]), later[n].poll;
      DeltaReplay(cfg, m, p, k, later[..n]);
      PollKeepsInv(cfg, m, Completed(p));
      RunsKeepInv(cfg, first, later[..n]);
      ReplayOnePoll(cfg, prev, q, 0);
      var end := AfterRun(cfg, prev, Completed(q));
      assert end.sent[..|prev.sent|] == prev.sent;
      ReplayContinues(snapshot, end.sent, |m.sent|, |prev.sent|);
    }
  }

  /******* Cancelled polls among completed ones *******/

  // What a store or a client holds for a session.
  function At(sessions: map<string, SessionState>, id: string): Option<SessionState> {
    if id in sessions then Some(sessions[id]) else None
  }

  // The updates collected by some steps.
  function Collected(cfg: Config, w: World, ops: seq<Op>): seq<SessionState> {
    var us := Run(cfg, w, ops).out.updates;
    if |w.out.updates| <= |us| then us[|w.out.updates|..] else []
  }

  // The sessions some steps wrote.
  function WrittenBy(cfg: Config, w: World, ops: seq<Op>): set<string> {
    Newest(Collected(cfg, w, ops)).Keys
  }

  // The sessions a completed poll tells about.
  function ToldBy(cfg: Config, st: State, p: Poll): set<string> {
    var out := AfterPoll(cfg, st, p).out;
    Newest(out.updates).Keys + Elements(out.removed)
  }

  // Sessions written by a cancelled poll that no completed poll has told about since.
  function Unsent(cfg: Config, m: Monitoring, start: set<string>, rs: seq<PollRun>): set<string> {
    if rs == [] then start else
      var n := |rs| - 1;
      var st := AfterRuns(cfg, m, rs[..n]).state;
      match rs[n]
      case Completed(p) => Unsent(cfg, m, start, rs[..n]) - ToldBy(cfg, st, p)
      case Cancelled(_, _) =>
        Unsent(cfg, m, start, rs[..n]) + WrittenBy(cfg, World(st, EMPTY_OUTBOX), RunOps(cfg, st, rs[n]))
  }

  // The client and the store agree on every session but the unsent ones.
  ghost predicate InStep(client: map<string, SessionState>, store: map<string, SessionState>, unsent: set<string>) {
    forall id :: id !in unsent ==> At(client, id) == At(store, id)
  }

  // The store has newer data for the unsent ones.
  ghost predicate Behind(client: map<string, SessionState>, store: map<string, SessionState>, unsent: set<string>) {
    forall id :: id in unsent ==> id in store && (id in client ==> Older(client[id], store[id]))
  }

  predicate Older(a: SessionState, b: SessionState) {
    a.info.lastDataReceivedAt < b.info.lastDataReceivedAt
  }

  // Data is committed at times after those of the data stored before.
  ghost predicate Newer(st: State, ops: seq<Op>) {
    forall i, id :: 0 <= i < |ops| && ops[i].ParseHandle? && id in st.store ==>
      st.store[id].info.lastDataReceivedAt < ops[i].now
  }

  ghost predicate ClockMoves(cfg: Config, m: Monitoring, rs: seq<PollRun>) {
    rs != [] ==>
      var st := AfterRuns(cfg, m, rs[..|rs| - 1]).state;
      && ClockMoves(cfg, m, rs[..|rs| - 1])
      && (rs[|rs| - 1].Cancelled? ==> Newer(st, RunOps(cfg, st, rs[|rs| - 1])))
  }

  ghost predicate NoSweeps(ops: seq<Op>) {
    forall i :: 0 <= i < |ops| ==> !IsSweepOp(ops[i])
  }

  lemma CancelledHasNoSweeps(cfg: Config, st: State, r: PollRun)
    requires r.Cancelled?
    ensures NoSweeps(RunOps(cfg, st, r))
  {
    SourcesOpsAreNoSweeps(r.script);
    var ops := RunOps(cfg, st, r);
    forall i | 0 <= i < |ops| ensures ops[i] in SourcesOps(r.script) {
      assert ops[i] == SourcesOps(r.script)[i];
    }
  }

  // A commit writes the one update it collects, stamped with the clock.
  lemma CommitCollects(w: World, source: string, h: SessionHandle, u: Update, cursor: Cursor, now: Time)
    requires Inv(w.state)
    ensures exists s :: WritesUpdate(w, Commit(w, source, h, u, cursor, now), s) && s.info.lastDataReceivedAt == now
  {
    var s := Updated(w.state, h, u, now);
    assert s.info.id == h.id && s.info.lastDataReceivedAt == now;
    assert WritesUpdate(w, Commit(w, source, h, u, cursor, now), s);
  }

  // No other step of a source writes a session.
  lemma StepCollects(cfg: Config, w: World, op: Op)
    requires Inv(w.state) && !IsSweepOp(op)
    ensures var w' := Step(cfg, w, op);
            || (w'.state.store == w.state.store && w'.out.updates == w.out.updates)
            || (op.ParseHandle? && exists s :: WritesUpdate(w, w', s) && s.info.lastDataReceivedAt == op.now)
  {
    match op
    case ParseHandle(source, h, parse, now) =>
      var r := parse(CursorAt(w.state, CursorKey(source, h.id)));
      if r.Parsed? && r.update.info.sessionID != "" {
        CommitCollects(w, source, h, r.update, r.cursor, now);
      }
    case _ =>
  }

  lemma CollectedOne(us: seq<SessionState>, more: seq<SessionState>, s: SessionState)
    ensures (us + more + [s])[|us|..] == more + [s]
  {
  }

  lemma PutOnTop(store: map<string, SessionState>, us: seq<SessionState>, s: SessionState)
    ensures store + Newest(us + [s]) == (store + Newest(us))[s.info.id := s]
  {
    NewestSnoc(us, s);
  }

  // Source steps: the store is what it was with the collected updates on top.
  lemma {:induction false} SourceStepsMirror(cfg: Config, w: World, ops: seq<Op>)
    requires Inv(w.state) && NoSweeps(ops)
    ensures Run(cfg, w, ops).out.updates == w.out.updates + Collected(cfg, w, ops)
    ensures Run(cfg, w, ops).state.store == w.state.store + Newest(Collected(cfg, w, ops))
  {
    if ops == [] {
      assert Collected(cfg, w, ops) == [];
    } else {
      var n := |ops| - 1;
      var mid, end := Run(cfg, w, ops[..n]), Run(cfg, w, ops);
      var more := Collected(cfg, w, ops[..n]);
      SourceStepsMirror(cfg, w, ops[..n]);
      RunKeepsInv(cfg, w, ops[..n]);
      StepCollects(cfg, mid, ops[n]);
      if end.out.updates == mid.out.updates {
        assert Collected(cfg, w, ops) == more;
      } else {
        var s :| WritesUpdate(mid, end, s);
        CollectedOne(w.out.updates, more, s);
        PutOnTop(w.state.store, more, s);
      }
    }
  }

  // ... and what they wrote carries one of their times.
  lemma {:induction false} WrittenIsStamped(cfg: Config, w: World, ops: seq<Op>, id: string, t: Time)
    requires Inv(w.state) && NoSweeps(ops) && id in WrittenBy(cfg, w, ops)
    requires forall i :: 0 <= i < |ops| && ops[i].ParseHandle? ==> t < ops[i].now
    ensures id in Run(cfg, w, ops).state.store && t < Run(cfg, w, ops).state.store[id].info.lastDataReceivedAt
  {
    assert Collected(cfg, w, []) == [];
    if ops != [] {
      var n := |ops| - 1;
      var mid, end := Run(cfg, w, ops[..n]), Run(cfg, w, ops);
      SourceStepsMirror(cfg, w, ops[..n]);
      SourceStepsMirror(cfg, w, ops);
      RunKeepsInv(cfg, w, ops[..n]);
      StepCollects(cfg, mid, ops[n]);
      if end.out.updates == mid.out.updates {
        assert Collected(cfg, w, ops) == Collected(cfg, w, ops[..n]);
        WrittenIsStamped(cfg, w, ops[..n], id, t);
      } else {
        var s :| WritesUpdate(mid, end, s) && s.info.lastDataReceivedAt == ops[n].now;
        if id != s.info.id {
          CollectedOne(w.out.updates, Collected(cfg, w, ops[..n]), s);
          NewestSnoc(Collected(cfg, w, ops[..n]), s);
          WrittenIsStamped(cfg, w, ops[..n], id, t);
        }
      }
    }
  }

  // A completed poll brings every client up to date on the sessions it tells about, and touches no other.
  lemma CompletedPollTells(cfg: Config, st: State, p: Poll, client: map<string, SessionState>, id: string)
    requires Inv(st)
    ensures var end := AfterPoll(cfg, st, p);
            var client' := ApplyRemoved(ApplyUpdates(client, end.out.updates), end.out.removed);
            if id in ToldBy(cfg, st, p) then At(client', id) == At(end.state.store, id)
            else At(client', id) == At(client, id) && At(end.state.store, id) == At(st.store, id)
  {
    var w, end := World(st, EMPTY_OUTBOX), AfterPoll(cfg, st, p);
    PollIsItsSteps(cfg, st, p);
    PollRemovesLast(cfg, st, p);
    RunMirrors(cfg, w, PollOps(cfg, st, p));
    ApplyIsNewest(client, end.out.updates);
    RemovedIsMinus(client + Newest(end.out.updates), end.out.removed);
  }

  lemma CompletedStaysInStep(cfg: Config, m: Monitoring, p: Poll,
                             client: map<string, SessionState>, unsent: set<string>)
    requires Inv(m.state) && InStep(client, m.state.store, unsent)
    ensures var end := AfterRun(cfg, m, Completed(p));
            var client' := ReceiveAll(client, Emitted(m.seqNo, AfterPoll(cfg, m.state, p).out, p.clock.delta));
            var unsent' := unsent - ToldBy(cfg, m.state, p);
            && InStep(client', end.state.store, unsent')
            && (Behind(client, m.state.store, unsent) ==> Behind(client', end.state.store, unsent'))
  {
    var out := AfterPoll(cfg, m.state, p).out;
    ReceiveEmitted(client, m.seqNo, out, p.clock.delta);
    var client', store' := ApplyRemoved(ApplyUpdates(client, out.updates), out.removed),
                        AfterPoll(cfg, m.state, p).state.store;
    forall id
      ensures if id in ToldBy(cfg, m.state, p) then At(client', id) == At(store', id)
              else At(client', id) == At(client, id) && At(store', id) == At(m.state.store, id)
    {
      CompletedPollTells(cfg, m.state, p, client, id);
    }
    if Behind(client, m.state.store, unsent) {
      forall id | id in unsent && id !in ToldBy(cfg, m.state, p)
        ensures id in store' && (id in client' ==> Older(client'[id], store'[id]))
      {
        assert At(client', id) == At(client, id) && At(store', id) == At(m.state.store, id);
      }
    }
  }

  // Source steps nobody is told about.
  lemma StepsStayInStep(cfg: Config, w: World, ops: seq<Op>, client: map<string, SessionState>, unsent: set<string>)
    requires Inv(w.state) && NoSweeps(ops) && InStep(client, w.state.store, unsent)
    ensures var end, unsent' := Run(cfg, w, ops), unsent + WrittenBy(cfg, w, ops);
            && InStep(client, end.state.store, unsent')
            && (Behind(client, w.state.store, unsent) && Newer(w.state, ops) ==>
                  Behind(client, end.state.store, unsent'))
  {
    var end := Run(cfg, w, ops);
    SourceStepsMirror(cfg, w, ops);
    if Behind(client, w.state.store, unsent) && Newer(w.state, ops) {
      forall id | id in unsent + WrittenBy(cfg, w, ops)
        ensures id in end.state.store && (id in client ==> Older(client[id], end.state.store[id]))
      {
        if id in WrittenBy(cfg, w, ops) {
          WrittenIsNewer(cfg, w, ops, id);
          assert At(client, id) == At(w.state.store, id) || id in unsent;
        }
      }
    }
  }

  lemma WrittenIsNewer(cfg: Config, w: World, ops: seq<Op>, id: string)
    requires Inv(w.state) && NoSweeps(ops) && id in WrittenBy(cfg, w, ops) && Newer(w.state, ops)
    ensures var store := Run(cfg, w, ops).state.store;
            id in store && (id in w.state.store ==> Older(w.state.store[id], store[id]))
  {
    SourceStepsMirror(cfg, w, ops);
    if id in w.state.store {
      WrittenIsStamped(cfg, w, ops, id, w.state.store[id].info.lastDataReceivedAt);
    }
  }

  // What a client has that received everything sent by some runs.
  function Receiving(cfg: Config, m: Monitoring, client: map<string, SessionState>,
                     rs: seq<PollRun>): map<string, SessionState> {
    if rs == [] then client else
      var n := |rs| - 1;
      var before, prev := Receiving(cfg, m, client, rs[..n]), AfterRuns(cfg, m, rs[..n]);
      match rs[n]
      case Completed(p) => ReceiveAll(before, Emitted(prev.seqNo, AfterPoll(cfg, prev.state, p).out, p.clock.delta))
      case Cancelled(_, _) => before
  }

  lemma LaterEvents(sent: seq<Event>, evs: seq<Event>, start: nat)
    requires start <= |sent|
    ensures (sent + evs)[start..] == sent[start..] + evs
  {
  }

  lemma {:induction false} ReceivingIsReplay(cfg: Config, m: Monitoring,
                                            client: map<string, SessionState>, rs: seq<PollRun>)
    ensures var end := AfterRuns(cfg, m, rs);
            m.sent <= end.sent && Receiving(cfg, m, client, rs) == ReceiveAll(client, end.sent[|m.sent|..])
  {
    if rs != [] {
      var n := |rs| - 1;
      var prev := AfterRuns(cfg, m, rs[..n]);
      ReceivingIsReplay(cfg, m, client, rs[..n]);
      match rs[n] {
        case Completed(p) =>
          var evs := Emitted(prev.seqNo, AfterPoll(cfg, prev.state, p).out, p.clock.delta);
          LaterEvents(prev.sent, evs, |m.sent|);
          ReceiveConcat(client, prev.sent[|m.sent|..], evs);
        case Cancelled(_, _) =>
      }
    }
  }

  lemma {:induction false} RunsStayInStep(cfg: Config, m: Monitoring,
                                          client: map<string, SessionState>, start: set<string>,
                                          rs: seq<PollRun>)
    requires Inv(m.state) && InStep(client, m.state.store, start)
    ensures var store, unsent := AfterRuns(cfg, m, rs).state.store, Unsent(cfg, m, start, rs);
            && InStep(Receiving(cfg, m, client, rs), store, unsent)
            && (Behind(client, m.state.store, start) && ClockMoves(cfg, m, rs) ==>
                  Behind(Receiving(cfg, m, client, rs), store, unsent))
  {
    if rs != [] {
      var n := |rs| - 1;
      var prev := AfterRuns(cfg, m, rs[..n]);
      RunsStayInStep(cfg, m, client, start, rs[..n]);
      RunsKeepInv(cfg, m, rs[..n]);
      var before, unsent := Receiving(cfg, m, client, rs[..n]), Unsent(cfg, m, start, rs[..n]);
      match rs[n] {
        case Completed(p) => CompletedStaysInStep(cfg, prev, p, before, unsent);
        case Cancelled(_, _) =>
          CancelledHasNoSweeps(cfg, prev.state, rs[n]);
          StepsStayInStep(cfg, World(prev.state, EMPTY_OUTBOX), RunOps(cfg, prev.state, rs[n]), before, unsent);
      }
    }
  }

  // The moment of a snapshot: after `k` steps of run `r`.
  function Moment(cfg: Config, st: State, r: PollRun, k: nat): World
    requires k <= |RunOps(cfg, st, r)|
  {
    Run(cfg, World(st, EMPTY_OUTBOX), RunOps(cfg, st, r)[..k])
  }

  // What the rest of that run leaves unsent.
  function UnsentSince(cfg: Config, st: State, r: PollRun, k: nat): set<string>
    requires k <= |RunOps(cfg, st, r)|
  {
    if r.Completed? then {} else WrittenBy(cfg, Moment(cfg, st, r, k), RunOps(cfg, st, r)[k..])
  }

  lemma RunSplit(cfg: Config, w: World, ops: seq<Op>, k: nat)
    requires k <= |ops|
    ensures Run(cfg, Run(cfg, w, ops[..k]), ops[k..]) == Run(cfg, w, ops)
  {
    RunConcat(cfg, w, ops[..k], ops[k..]);
    assert ops[..k] + ops[k..] == ops;
  }

  lemma RestOfRun(cfg: Config, m: Monitoring, r: PollRun, k: nat)
    requires k <= |RunOps(cfg, m.state, r)|
    ensures Run(cfg, Moment(cfg, m.state, r, k), RunOps(cfg, m.state, r)[k..]).state == AfterRun(cfg, m, r).state
  {
    RunSplit(cfg, World(m.state, EMPTY_OUTBOX), RunOps(cfg, m.state, r), k);
    RunOpsAreTheRun(cfg, m, r);
  }

  lemma CancelledSnapshotInStep(cfg: Config, m: Monitoring, r: PollRun, k: nat)
    requires Inv(m.state) && k <= |RunOps(cfg, m.state, r)| && r.Cancelled?
    ensures var snapshot, store := Moment(cfg, m.state, r, k).state.store, AfterRun(cfg, m, r).state.store;
            var unsent := UnsentSince(cfg, m.state, r, k);
            && InStep(snapshot, store, unsent)
            && (Newer(Moment(cfg, m.state, r, k).state, RunOps(cfg, m.state, r)[k..]) ==>
                  Behind(snapshot, store, unsent))
  {
    var w, ops, mid := World(m.state, EMPTY_OUTBOX), RunOps(cfg, m.state, r), Moment(cfg, m.state, r, k);
    CancelledHasNoSweeps(cfg, m.state, r);
    RunKeepsInv(cfg, w, ops[..k]);
    assert NoSweeps(ops[k..]);
    StepsStayInStep(cfg, mid, ops[k..], mid.state.store, {});
    RestOfRun(cfg, m, r, k);
  }

  // After the rest of that run the client has what it had or, if the run completed, the store.
  lemma SnapshotInStep(cfg: Config, m: Monitoring, r: PollRun, k: nat)
    requires Inv(m.state) && k <= |RunOps(cfg, m.state, r)|
    ensures var first := AfterRun(cfg, m, r);
            var snapshot, unsent := Moment(cfg, m.state, r, k).state.store, UnsentSince(cfg, m.state, r, k);
            && m.sent <= first.sent
            && var client := ReceiveAll(snapshot, first.sent[|m.sent|..]);
               && InStep(client, first.state.store, unsent)
               && (r.Cancelled? && Newer(Moment(cfg, m.state, r, k).state, RunOps(cfg, m.state, r)[k..]) ==>
                     Behind(client, first.state.store, unsent))
  {
    if r.Completed? {
      ReplayOnePoll(cfg, m, r.poll, k);
    } else {
      CancelledSnapshotInStep(cfg, m, r, k);
      assert m.sent[|m.sent|..] == [];
    }
  }

  // The sessions a snapshot at step `k` of run `r` and everything sent by later runs leave wrong.
  function LeftBehind(cfg: Config, m: Monitoring, r: PollRun, k: nat, later: seq<PollRun>): set<string>
    requires k <= |RunOps(cfg, m.state, r)|
  {
    Unsent(cfg, AfterRun(cfg, m, r), UnsentSince(cfg, m.state, r, k), later)
  }

  ghost predicate ClockMovesSince(cfg: Config, m: Monitoring, r: PollRun, k: nat, later: seq<PollRun>)
    requires k <= |RunOps(cfg, m.state, r)|
  {
    && (r.Cancelled? ==> Newer(Moment(cfg, m.state, r, k).state, RunOps(cfg, m.state, r)[k..]))
    && ClockMoves(cfg, AfterRun(cfg, m, r), later)
  }

  lemma Differences(client: map<string, SessionState>, store: map<string, SessionState>, left: set<string>)
    requires InStep(client, store, left)
    ensures left == {} ==> client == store
    ensures Behind(client, store, left) ==>
              && (forall id :: At(client, id) == At(store, id) <==> id !in left)
              && (client == store <==> left == {})
  {
    if left == {} {
      assert forall id :: At(client, id) == At(store, id);
      assert client == store by {
        assert forall id :: id in client <==> At(client, id).Some?;
        assert forall id :: id in store <==> At(store, id).Some?;
      }
    }
    if Behind(client, store, left) {
      forall id ensures At(client, id) == At(store, id) <==> id !in left {
        if id in left && id in client {
          assert Older(client[id], store[id]);
        }
      }
      if left != {} {
        var id :| id in left;
        assert At(client, id) != At(store, id);
      }
    }
  }

  // The client starts from what it has after the run of its snapshot.
  lemma MixedInStep(cfg: Config, m: Monitoring, r: PollRun, k: nat, later: seq<PollRun>)
    requires Inv(m.state) && k <= |RunOps(cfg, m.state, r)|
    ensures var first, left := AfterRun(cfg, m, r), LeftBehind(cfg, m, r, k, later);
            var store := AfterRuns(cfg, first, later).state.store;
            && m.sent <= first.sent
            && var start := ReceiveAll(Moment(cfg, m.state, r, k).state.store, first.sent[|m.sent|..]);
               var client := Receiving(cfg, first, start, later);
               && InStep(client, store, left)
               && (ClockMovesSince(cfg, m, r, k, later) ==> Behind(client, store, left))
  {
    var first := AfterRun(cfg, m, r);
    SnapshotInStep(cfg, m, r, k);
    PollKeepsInv(cfg, m, r);
    var start := ReceiveAll(Moment(cfg, m.state, r, k).state.store, first.sent[|m.sent|..]);
    RunsStayInStep(cfg, first, start, UnsentSince(cfg, m.state, r, k), later);
  }

  // A client takes a snapshot at any step of any run and applies everything sent from that run on, completed and
  // cancelled polls in any order.  It agrees with the store on every session but those a cancelled poll wrote and no
  // completed one has told about since; and if the clock moves, on no other.
  lemma MixedReplay(cfg: Config, m: Monitoring, r: PollRun, k: nat, later: seq<PollRun>)
    requires Inv(m.state) && k <= |RunOps(cfg, m.state, r)|
    ensures var end := AfterRuns(cfg, AfterRun(cfg, m, r), later);
            var left := LeftBehind(cfg, m, r, k, later);
            && m.sent <= end.sent
            && var client := ReceiveAll(Moment(cfg, m.state, r, k).state.store, end.sent[|m.sent|..]);
               && (forall id :: id !in left ==> At(client, id) == At(end.state.store, id))
               && (left == {} ==> client == end.state.store)
               && (ClockMovesSince(cfg, m, r, k, later) ==>
                     && (forall id :: At(client, id) == At(end.state.store, id) <==> id !in left)
                     && (client == end.state.store <==> left == {}))
  {
    var first, snapshot := AfterRun(cfg, m, r), Moment(cfg, m.state, r, k).state.store;
    MixedInStep(cfg, m, r, k, later);
    var end := AfterRuns(cfg, first, later);
    ReceivingIsReplay(cfg, first, ReceiveAll(snapshot, first.sent[|m.sent|..]), later);
    assert end.sent[..|first.sent|] == first.sent;
    ReplayContinues(snapshot, end.sent, |m.sent|, |first.sent|);
    Differences(ReceiveAll(snapshot, end.sent[|m.sent|..]), end.state.store, LeftBehind(cfg, m, r, k, later));
  }

  // One cancelled poll: nothing is sent; the store is what its clients hold if the poll wrote no session, and if the
  // clock moves only then.
  lemma CancelledPollIsSilent(cfg: Config, m: Monitoring, r: PollRun)
    requires Inv(m.state) && r.Cancelled?
    ensures var end, ops := AfterRun(cfg, m, r), RunOps(cfg, m.state, r);
            var written := WrittenBy(cfg, World(m.state, EMPTY_OUTBOX), ops);
            && end.sent == m.sent
            && (written == {} ==> end.state.store == m.state.store)
            && (Newer(m.state, ops) ==> (end.state.store == m.state.store <==> written == {}))
  {
    var ops := RunOps(cfg, m.state, r);
    assert ops[..0] == [] && ops[0..] == ops;
    MixedReplay(cfg, m, r, 0, []);
  }

  // A poll of a source with two sessions, the context of which is found cancelled before the second is parsed.
  function CutShort(name: string, h: SessionHandle, u: Update, c: Cursor, now: Time, second: HandleScript): PollRun {
    Cancelled([SourceScript(name, Found([HandleScript(h, _ => Parsed(u, c), now), second]), now)], 2)
  }

  lemma CutShortOps(cfg: Config, st: State, name: string, h: SessionHandle, u: Update, c: Cursor, now: Time,
                    second: HandleScript)
    ensures var r := CutShort(name, h, u, c, now, second);
            && RunOps(cfg, st, r) == [BeginSource] + [ParseHandle(name, h, _ => Parsed(u, c), now)]
            && CancelledAt(r.script, 2) && StepsBefore(r.script, 2) == r.steps
  {
    var script := CutShort(name, h, u, c, now, second).script;
    var op := ParseHandle(name, h, _ => Parsed(u, c), now);
    var other := ParseHandle(name, second.handle, second.parse, second.now);
    assert script[..0] == [] && script[..1] == script && SourcesOps([]) == [] && Checks([]) == 0;
    SourcesOpsNext(script, 0);
    StepsBeforeIn(script, 0, 2);
    assert SourcesOps(script) == [BeginSource] + [op] + [other] + [EndSource(name, now)];
  }

  // As the first poll it leaves the first session in the store, and clients without it.
  lemma CancelledPollLeavesBehind(cfg: Config, name: string, h: SessionHandle, u: Update, c: Cursor, now: Time,
                                  second: HandleScript)
    requires u.info.sessionID != ""
    ensures var r := CutShort(name, h, u, c, now, second);
            var end := AfterRun(cfg, STARTED, r);
            && CancelledAt(r.script, 2) && StepsBefore(r.script, 2) == r.steps
            && end.sent == [] && end.state.store.Keys == {h.id} && STARTED.state.store == map[]
            && LeftBehind(cfg, STARTED, r, 0, []) == {h.id}
  {
    var r, w := CutShort(name, h, u, c, now, second), World(INITIAL, EMPTY_OUTBOX);
    var op := ParseHandle(name, h, _ => Parsed(u, c), now);
    var ops, s := RunOps(cfg, INITIAL, r), Updated(INITIAL, h, u, now);
    CutShortOps(cfg, INITIAL, name, h, u, c, now, second);
    RunSingle(cfg, w, BeginSource);
    RunOne(cfg, w, [BeginSource], op);
    assert Run(cfg, w, ops) == Commit(w, name, h, u, c, now);
    assert ops[..0] == [] && ops[0..] == ops && Run(cfg, w, []) == w;
    assert [] + [s] == [s];
    assert Collected(cfg, w, ops) == [s];
    NewestSnoc([], s);
    assert Newest([]) == map[];
  }
}
