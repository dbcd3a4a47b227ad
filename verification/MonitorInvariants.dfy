/**
 What every step of a poll keeps, the lifecycle of each session over whole runs, and the
 numbering of events.
 */
module MonitorInvariants {
  import opened Wrappers
  import opened Session
  import opened MonitorSpec

  /******* The store *******/

  ghost predicate Inv(st: State) {
    && (forall id :: id in st.store ==>
          st.store[id].info.id == id && (st.store[id].info.lifecycle.Terminal? <==> st.store[id].completedAt.Some?))
    && st.store.Keys !! st.removed
  }

  lemma StepKeepsInv(cfg: Config, w: World, op: Op)
    requires Inv(w.state)
    ensures Inv(Step(cfg, w, op).state)
  {
    match op
    case ParseHandle(source, h, parse, now) =>
      var r := parse(CursorAt(w.state, CursorKey(source, h.id)));
      if r.Parsed? && r.update.info.sessionID != "" {
        CommitKeepsInv(w.state, source, h, r.update, r.cursor, now);
      }
    case _ =>
  }

  lemma CommitKeepsInv(st: State, source: string, h: SessionHandle, u: Update, cursor: Cursor, now: Time)
    requires Inv(st)
    ensures Inv(Committed(st, source, h, u, cursor, now))
  {
  }

  lemma {:induction false} RunKeepsInv(cfg: Config, w: World, ops: seq<Op>)
    requires Inv(w.state)
    ensures Inv(Run(cfg, w, ops).state)
  {
    if ops != [] {
      RunKeepsInv(cfg, w, ops[..|ops| - 1]);
      StepKeepsInv(cfg, Run(cfg, w, ops[..|ops| - 1]), ops[|ops| - 1]);
    }
  }

  lemma PollKeepsInv(cfg: Config, m: Monitoring, r: PollRun)
    requires Inv(m.state)
    ensures Inv(AfterRun(cfg, m, r).state)
  {
    match r
    case Completed(p) =>
      PollIsItsSteps(cfg, m.state, p);
      RunKeepsInv(cfg, World(m.state, EMPTY_OUTBOX), PollOps(cfg, m.state, p));
    case Cancelled(script, steps) =>
      var ops := SourcesOps(script);
      RunKeepsInv(cfg, World(m.state, EMPTY_OUTBOX), if steps <= |ops| then ops[..steps] else ops);
  }

  // Completed or cancelled, in any order.
  lemma {:induction false} RunsKeepInv(cfg: Config, m: Monitoring, rs: seq<PollRun>)
    requires Inv(m.state)
    ensures Inv(AfterRuns(cfg, m, rs).state)
  {
    if rs != [] {
      RunsKeepInv(cfg, m, rs[..|rs| - 1]);
      PollKeepsInv(cfg, AfterRuns(cfg, m, rs[..|rs| - 1]), rs[|rs| - 1]);
    }
  }

  /******* Cursor keys *******/

  // Sessions of sources without a colon in their names have cursors of their own.
  lemma CursorKeysDiffer(source: string, id: string, source': string, id': string)
    requires ':' !in source && ':' !in source'
    ensures CursorKey(source, id) == CursorKey(source', id') <==> source == source' && id == id'
  {
    var key, key' := CursorKey(source, id), CursorKey(source', id');
    if key == key' {
      assert key[|source|] == ':' && key'[|source'|] == ':';
      assert forall i :: 0 <= i < |source| ==> key[i] == source[i];
      assert forall i :: 0 <= i < |source'| ==> key'[i] == source'[i];
      assert |source| == |source'|;
      assert source == key[..|source|] == key'[..|source'|] == source';
      assert id == key[|source| + 1..] == key'[|source'| + 1..] == id';
    }
  }

  /******* Event log *******/

  function LifecyclesOf(evs: seq<Event>): seq<LifecycleEvent> {
    if evs == [] then [] else
      LifecyclesOf(evs[..|evs| - 1])
      + (if evs[|evs| - 1].payload.LifecyclePayload? then [evs[|evs| - 1].payload.lifecycle] else [])
  }

  function HealthsOf(evs: seq<Event>): seq<Health> {
    if evs == [] then [] else
      HealthsOf(evs[..|evs| - 1])
      + (if evs[|evs| - 1].payload.HealthPayload? then [evs[|evs| - 1].payload.health] else [])
  }

  lemma {:induction false} LifecyclesConcat(a: seq<Event>, b: seq<Event>)
    ensures LifecyclesOf(a + b) == LifecyclesOf(a) + LifecyclesOf(b)
  {
    if b == [] {
      assert a + b == a;
    } else {
      assert (a + b)[..|a + b| - 1] == a + b[..|b| - 1];
      LifecyclesConcat(a, b[..|b| - 1]);
    }
  }

  lemma {:induction false} HealthsConcat(a: seq<Event>, b: seq<Event>)
    ensures HealthsOf(a + b) == HealthsOf(a) + HealthsOf(b)
  {
    if b == [] {
      assert a + b == a;
    } else {
      assert (a + b)[..|a + b| - 1] == a + b[..|b| - 1];
      HealthsConcat(a, b[..|b| - 1]);
    }
  }

  lemma {:induction false} NoLifecycles(evs: seq<Event>)
    requires forall i :: 0 <= i < |evs| ==> !evs[i].payload.LifecyclePayload?
    ensures LifecyclesOf(evs) == []
  {
    if evs != [] {
      NoLifecycles(evs[..|evs| - 1]);
    }
  }

  lemma {:induction false} NoHealths(evs: seq<Event>)
    requires forall i :: 0 <= i < |evs| ==> !evs[i].payload.HealthPayload?
    ensures HealthsOf(evs) == []
  {
    if evs != [] {
      NoHealths(evs[..|evs| - 1]);
    }
  }

  lemma {:induction false} LifecycleEventsLog(seqNo: nat, lcs: seq<LifecycleEvent>)
    ensures LifecyclesOf(LifecycleEvents(seqNo, lcs)) == lcs
  {
    if lcs != [] {
      var n := |lcs| - 1;
      assert LifecycleEvents(seqNo, lcs)[..n] == LifecycleEvents(seqNo, lcs[..n]);
      LifecycleEventsLog(seqNo, lcs[..n]);
    }
  }

  lemma {:induction false} HealthEventsLog(seqNo: nat, hs: seq<Health>)
    ensures HealthsOf(HealthEvents(seqNo, hs)) == hs
  {
    if hs != [] {
      var n := |hs| - 1;
      assert HealthEvents(seqNo, hs)[..n] == HealthEvents(seqNo, hs[..n]);
      HealthEventsLog(seqNo, hs[..n]);
    }
  }

  lemma LifecyclesFirst(ls: seq<Event>, rest: seq<Event>, log: seq<LifecycleEvent>)
    requires LifecyclesOf(ls) == log && forall i :: 0 <= i < |rest| ==> !rest[i].payload.LifecyclePayload?
    ensures LifecyclesOf(ls + rest) == log
  {
    NoLifecycles(rest);
    LifecyclesConcat(ls, rest);
  }

  // A poll's events carry exactly the lifecycle and health events it collected, in order.
  lemma EmittedLifecycles(seqNo: nat, out: Outbox, now: Time)
    ensures LifecyclesOf(Emitted(seqNo, out, now)) == out.lifecycles
  {
    var ls := LifecycleEvents(seqNo, out.lifecycles);
    var ds := DeltaEvents(seqNo + |ls|, out, now);
    var rest := ds + HealthEvents(seqNo + |ls| + |ds|, out.health);
    LifecycleEventsLog(seqNo, out.lifecycles);
    LifecyclesFirst(ls, rest, out.lifecycles);
    assert Emitted(seqNo, out, now) == ls + rest;
  }

  lemma HealthsOfParts(ls: seq<Event>, ds: seq<Event>, hs: seq<Event>, log: seq<Health>)
    requires HealthsOf(ls) == [] && HealthsOf(ds) == [] && HealthsOf(hs) == log
    ensures HealthsOf(ls + ds + hs) == log
  {
    HealthsConcat(ls, ds);
    HealthsConcat(ls + ds, hs);
  }

  lemma EmittedHealths(seqNo: nat, out: Outbox, now: Time)
    ensures HealthsOf(Emitted(seqNo, out, now)) == out.health
  {
    var ls := LifecycleEvents(seqNo, out.lifecycles);
    var ds := DeltaEvents(seqNo + |ls|, out, now);
    var hs := HealthEvents(seqNo + |ls| + |ds|, out.health);
    NoHealths(ls);
    NoHealths(ds);
    HealthEventsLog(seqNo + |ls| + |ds|, out.health);
    HealthsOfParts(ls, ds, hs, out.health);
  }

  ghost predicate Numbered(m: Monitoring) {
    m.seqNo == |m.sent| && forall i :: 0 <= i < |m.sent| ==> m.sent[i].seqNo == i + 1
  }

  // Events are numbered 1, 2, 3, ... over any run, cancelled polls included.
  lemma {:induction false} SeqCounts(cfg: Config, rs: seq<PollRun>)
    ensures Numbered(AfterRuns(cfg, STARTED, rs))
  {
    if rs != [] {
      SeqCounts(cfg, rs[..|rs| - 1]);
      var m := AfterRuns(cfg, STARTED, rs[..|rs| - 1]);
      match rs[|rs| - 1] {
        case Completed(p) =>
          EmittedNumbers(m.seqNo, AfterPoll(cfg, m.state, p).out, p.clock.delta);
        case Cancelled(_, _) =>
      }
    }
  }

  lemma EmittedNumbers(seqNo: nat, out: Outbox, now: Time)
    ensures var evs := Emitted(seqNo, out, now); forall i :: 0 <= i < |evs| ==> evs[i].seqNo == seqNo + i + 1
  {
  }

  /******* Lifecycle automaton *******/

  datatype Phase = Untracked | Live | Ended | Gone

  // Where a session is, as the store and the removed set show it.
  function PhaseOf(st: State, id: string): Phase {
    if id in st.store then (if st.store[id].info.lifecycle.Active? then Live else Ended)
    else if id in st.removed then Gone
    else Untracked
  }

  // The documented transition table: which event may follow in which phase, with which From and To.
  function Move(p: Phase, e: LifecycleEvent): Option<Phase> {
    match e.kind
    case EventDiscovered => if p == Untracked && e.from == None && e.to == Some(Active) then Some(Live) else None
    case EventUpdated => if p == Live && e.from == Some(Active) && e.to == Some(Active) then Some(Live) else None
    case EventResumed =>
      if p in {Ended, Gone} && e.from == Some(Terminal) && e.to == Some(Active) then Some(Live) else None
    case EventTerminal => if p == Live && e.from == Some(Active) && e.to == Some(Terminal) then Some(Ended) else None
    case EventStale => if p == Live && e.from == Some(Active) && e.to == Some(Terminal) then Some(Ended) else None
    case EventRemoved => if p == Ended && e.from == Some(Terminal) && e.to == None then Some(Gone) else None
  }

  // Follows the events of session `id`; None when one of them is not in the table.
  function Follow(p: Phase, evs: seq<LifecycleEvent>, id: string): Option<Phase> {
    if evs == [] then Some(p) else
      match Follow(p, evs[..|evs| - 1], id)
      case None => None
      case Some(q) => if evs[|evs| - 1].sessionID == id then Move(q, evs[|evs| - 1]) else Some(q)
  }

  lemma FollowOne(p: Phase, evs: seq<LifecycleEvent>, e: LifecycleEvent, id: string)
    requires Follow(p, evs, id).Some?
    ensures Follow(p, evs + [e], id)
         == if e.sessionID == id then Move(Follow(p, evs, id).value, e) else Follow(p, evs, id)
  {
    assert (evs + [e])[..|evs + [e]| - 1] == evs;
  }

  // Nothing happened to any session, or one event was added and one session moved along it.
  ghost predicate Moves(w: World, w': World) {
    || (w'.out.lifecycles == w.out.lifecycles && forall id :: PhaseOf(w'.state, id) == PhaseOf(w.state, id))
    || exists e :: MovesAlong(w, w', e)
  }

  ghost predicate MovesAlong(w: World, w': World, e: LifecycleEvent) {
    && w'.out.lifecycles == w.out.lifecycles + [e]
    && Move(PhaseOf(w.state, e.sessionID), e) == Some(PhaseOf(w'.state, e.sessionID))
    && forall id :: id != e.sessionID ==> PhaseOf(w'.state, id) == PhaseOf(w.state, id)
  }

  // An update ends a session only if it says so and the session is active; any other update makes it active.
  lemma PhaseAfterUpdate(st: State, source: string, h: SessionHandle, u: Update, cursor: Cursor, now: Time)
    requires Inv(st)
    ensures PhaseOf(Committed(st, source, h, u, cursor, now), h.id)
         == if u.info.terminal && PhaseOf(st, h.id) == Live then Ended else Live
  {
  }

  lemma CommitPhase(st: State, source: string, h: SessionHandle, u: Update, cursor: Cursor, now: Time)
    requires Inv(st)
    ensures Move(PhaseOf(st, h.id), CommitEvent(st, h, u.info, now))
         == Some(PhaseOf(Committed(st, source, h, u, cursor, now), h.id))
  {
    PhaseAfterUpdate(st, source, h, u, cursor, now);
  }

  lemma CommitLeavesOthers(st: State, source: string, h: SessionHandle, u: Update, cursor: Cursor, now: Time,
                           id: string)
    requires id != h.id
    ensures PhaseOf(Committed(st, source, h, u, cursor, now), id) == PhaseOf(st, id)
  {
  }

  lemma CommitMoves(w: World, source: string, h: SessionHandle, u: Update, cursor: Cursor, now: Time)
    requires Inv(w.state)
    ensures Moves(w, Commit(w, source, h, u, cursor, now))
  {
    var w', e := Commit(w, source, h, u, cursor, now), CommitEvent(w.state, h, u.info, now);
    CommitPhase(w.state, source, h, u, cursor, now);
    forall id | id != h.id ensures PhaseOf(w'.state, id) == PhaseOf(w.state, id) {
      CommitLeavesOthers(w.state, source, h, u, cursor, now, id);
    }
    assert MovesAlong(w, w', e);
  }

  lemma EndMoves(w: World, id: string, kind: LifecycleEventType, reason: string, now: Time)
    requires id in w.state.store && w.state.store[id].info.lifecycle == Active && kind in {EventStale, EventTerminal}
    ensures Moves(w, EndSession(w, id, kind, reason, now))
  {
    var w' := EndSession(w, id, kind, reason, now);
    assert MovesAlong(w, w', w'.out.lifecycles[|w.out.lifecycles|]);
  }

  lemma RemoveMoves(w: World, id: string, now: Time)
    requires id in w.state.store && w.state.store[id].info.lifecycle == Terminal
    ensures Moves(w, RemoveSession(w, id, now))
  {
    var w' := RemoveSession(w, id, now);
    assert MovesAlong(w, w', w'.out.lifecycles[|w.out.lifecycles|]);
  }

  lemma StepMoves(cfg: Config, w: World, op: Op)
    requires Inv(w.state)
    ensures Moves(w, Step(cfg, w, op))
  {
    match op
    case ParseHandle(source, h, parse, now) =>
      var r := parse(CursorAt(w.state, CursorKey(source, h.id)));
      if r.Parsed? && r.update.info.sessionID != "" {
        CommitMoves(w, source, h, r.update, r.cursor, now);
      }
    case StaleCheck(id, now) =>
      if id in w.state.store && IsStale(cfg, w.state.store[id].info, now) {
        EndMoves(w, id, EventStale, "no data received past stale threshold", now);
      }
    case SlugCheck(id, slugs, now) =>
      if id in w.state.store && SlugDone(w.state.store[id].info, slugs) {
        EndMoves(w, id, EventTerminal, "parent reported subagent completion", now);
      }
    case RetentionCheck(id, now) =>
      if id in w.state.store && Expired(cfg, w.state.store[id], now) {
        RemoveMoves(w, id, now);
      }
    case _ =>
  }

  lemma StepFollows(cfg: Config, w: World, op: Op, before: seq<LifecycleEvent>, id: string)
    requires Inv(w.state)
    requires Follow(Untracked, before + w.out.lifecycles, id) == Some(PhaseOf(w.state, id))
    ensures var w' := Step(cfg, w, op);
            Follow(Untracked, before + w'.out.lifecycles, id) == Some(PhaseOf(w'.state, id))
  {
    var w' := Step(cfg, w, op);
    StepMoves(cfg, w, op);
    if w'.out.lifecycles != w.out.lifecycles {
      var e :| MovesAlong(w, w', e);
      assert before + w'.out.lifecycles == (before + w.out.lifecycles) + [e];
      FollowOne(Untracked, before + w.out.lifecycles, e, id);
    }
  }

  lemma {:induction false} RunFollows(cfg: Config, w: World, ops: seq<Op>, before: seq<LifecycleEvent>, id: string)
    requires Inv(w.state)
    requires Follow(Untracked, before + w.out.lifecycles, id) == Some(PhaseOf(w.state, id))
    ensures var w' := Run(cfg, w, ops);
            Follow(Untracked, before + w'.out.lifecycles, id) == Some(PhaseOf(w'.state, id))
  {
    if ops != [] {
      RunFollows(cfg, w, ops[..|ops| - 1], before, id);
      RunKeepsInv(cfg, w, ops[..|ops| - 1]);
      StepFollows(cfg, Run(cfg, w, ops[..|ops| - 1]), ops[|ops| - 1], before, id);
    }
  }

  // No cancelled poll leaves the session elsewhere than it found it.
  ghost predicate CancelledKeep(cfg: Config, rs: seq<PollRun>, id: string) {
    rs != [] ==>
      && CancelledKeep(cfg, rs[..|rs| - 1], id)
      && (rs[|rs| - 1].Cancelled? ==>
            PhaseOf(AfterRuns(cfg, STARTED, rs).state, id)
            == PhaseOf(AfterRuns(cfg, STARTED, rs[..|rs| - 1]).state, id))
  }

  lemma CompletedFollows(cfg: Config, m: Monitoring, p: Poll, id: string)
    requires Inv(m.state) && Follow(Untracked, LifecyclesOf(m.sent), id) == Some(PhaseOf(m.state, id))
    ensures var m' := AfterRun(cfg, m, Completed(p));
            Follow(Untracked, LifecyclesOf(m'.sent), id) == Some(PhaseOf(m'.state, id))
  {
    PollIsItsSteps(cfg, m.state, p);
    var before := LifecyclesOf(m.sent);
    assert before + EMPTY_OUTBOX.lifecycles == before;
    RunFollows(cfg, World(m.state, EMPTY_OUTBOX), PollOps(cfg, m.state, p), before, id);
    var out := AfterPoll(cfg, m.state, p).out;
    EmittedLifecycles(m.seqNo, out, p.clock.delta);
    LifecyclesConcat(m.sent, Emitted(m.seqNo, out, p.clock.delta));
  }

  // The lifecycle events sent for a session are a path of the transition table from "untracked" to where the store
  // and the removed set say it is, until a cancelled poll moves the session; and the first one that does breaks it.
  lemma {:induction false} LifecyclePath(cfg: Config, rs: seq<PollRun>, id: string)
    requires rs != [] ==> CancelledKeep(cfg, rs[..|rs| - 1], id)
    ensures var m := AfterRuns(cfg, STARTED, rs);
            Follow(Untracked, LifecyclesOf(m.sent), id) == Some(PhaseOf(m.state, id)) <==> CancelledKeep(cfg, rs, id)
  {
    if rs != [] {
      var n := |rs| - 1;
      LifecyclePath(cfg, rs[..n], id);
      RunsKeepInv(cfg, STARTED, rs[..n]);
      if rs[n].Completed? {
        CompletedFollows(cfg, AfterRuns(cfg, STARTED, rs[..n]), rs[n].poll, id);
      }
    }
  }
}
