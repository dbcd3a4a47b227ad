/**
 The monitor object: its store on the heap, its poll loop, and what it hands out.

 A stored session holds its completion time in a cell and its subagents in an array, as the
 session records of the source do.  `View` is the monitor's state as a value; every method says
 what it does to the view in terms of MonitorSpec.  `exposed` collects every cell and array that
 was handed to a caller or sink or received from a source, and `Valid` keeps all of them apart
 from the ones the store can reach, so nobody else can write to the store.
 */
module Monitor {
  import opened Wrappers
  import opened Session
  import opened Collections
  import opened MonitorSpec

  class TimeCell {
    var time: Time

    constructor (time: Time)
      ensures this.time == time
    {
      this.time := time;
    }
  }

  type Subagents = array?<SubagentState>

  type Stored = Session<TimeCell?, Subagents>

  ghost function Cells(s: Stored): set<object> {
    (if s.completedAt != null then {s.completedAt} else {})
    + (if s.subagents != null then {s.subagents} else {})
  }

  ghost predicate Apart(s: Stored, others: set<object>) {
    && (s.completedAt != null ==> s.completedAt !in others)
    && (s.subagents != null ==> s.subagents !in others)
  }

  ghost function Listed(a: Subagents): seq<SubagentState>
    reads a
  {
    if a == null then [] else a[..]
  }

  // The session as a value.
  ghost function Abs(s: Stored): SessionState
    reads s.completedAt, s.subagents
  {
    Session(s.info, if s.completedAt == null then None else Some(s.completedAt.time), Listed(s.subagents))
  }

  ghost function AbsUpdate(u: SourceUpdate<Subagents>): Update
    reads u.subagents
  {
    SourceUpdate(u.info, Listed(u.subagents))
  }

  ghost function StoreTimes(store: map<string, Stored>): set<TimeCell> {
    set id | id in store && store[id].completedAt != null :: store[id].completedAt
  }

  ghost function StoreLists(store: map<string, Stored>): set<array<SubagentState>> {
    set id | id in store && store[id].subagents != null :: store[id].subagents
  }

  ghost function TimesOf(ss: seq<Stored>): set<TimeCell> {
    set i | 0 <= i < |ss| && ss[i].completedAt != null :: ss[i].completedAt
  }

  ghost function ListsOf(ss: seq<Stored>): set<array<SubagentState>> {
    set i | 0 <= i < |ss| && ss[i].subagents != null :: ss[i].subagents
  }

  // The sessions of the store in a given order.
  ghost function InOrder(order: seq<string>, store: map<string, SessionState>): (vs: seq<SessionState>)
    requires forall i :: 0 <= i < |order| ==> order[i] in store
  {
    seq(|order|, i requires 0 <= i < |order| => store[order[i]])
  }

  // A list of subagents is absent or not empty.
  predicate Trim(s: Stored) {
    s.subagents != null ==> s.subagents.Length > 0
  }

  // `s` is `v` on the heap, in cells apart from `others`.
  ghost predicate Holds(s: Stored, v: SessionState, others: set<object>)
    reads s.completedAt, s.subagents
  {
    Trim(s) && Apart(s, others) && Abs(s) == v
  }

  // What a poll has collected to send.
  datatype Batch = Batch(updates: seq<Stored>, removed: seq<string>,
    lifecycles: seq<LifecycleEvent>, health: seq<Health>)

  // The heap sessions hold these values.
  ghost predicate Copies(ss: seq<Stored>, vs: seq<SessionState>)
    reads TimesOf(ss), ListsOf(ss)
  {
    |ss| == |vs| && forall i :: 0 <= i < |ss| ==> Abs(ss[i]) == vs[i]
  }

  lemma CopiesNext(ss: seq<Stored>, vs: seq<SessionState>, s: Stored)
    requires Copies(ss, vs)
    ensures Copies(ss + [s], vs + [Abs(s)])
  {
  }

  lemma SnapshotNext(ss: seq<Stored>, order: seq<string>, store: map<string, SessionState>, id: string, c: Stored)
    requires forall i :: 0 <= i < |order| ==> order[i] in store
    requires Copies(ss, InOrder(order, store)) && id in store && Abs(c) == store[id]
    ensures Copies(ss + [c], InOrder(order + [id], store))
  {
    CopiesNext(ss, InOrder(order, store), c);
    assert InOrder(order + [id], store) == InOrder(order, store) + [store[id]];
  }

  // Callers hold these sessions.
  ghost predicate Given(ss: seq<Stored>, exposed: set<object>) {
    forall i :: 0 <= i < |ss| ==> Cells(ss[i]) <= exposed
  }

  // No two of them share a cell.
  ghost predicate Separate(ss: seq<Stored>) {
    forall i, j :: 0 <= i < j < |ss| ==> Cells(ss[i]) !! Cells(ss[j])
  }

  lemma GivenNext(ss: seq<Stored>, given: set<object>, c: Stored)
    requires Given(ss, given) && Separate(ss) && Cells(c) !! given
    ensures Given(ss + [c], given + Cells(c)) && Separate(ss + [c])
  {
  }

  ghost predicate Collected(b: Batch, out: Outbox)
    reads TimesOf(b.updates), ListsOf(b.updates)
  {
    && Copies(b.updates, out.updates)
    && b.removed == out.removed && b.lifecycles == out.lifecycles && b.health == out.health
  }

  // A sweep has visited `order` and has `todo` before it.
  ghost predicate Pending(todo: set<string>, order: seq<string>, keys: set<string>) {
    && todo <= keys
    && (forall i :: 0 <= i < |order| ==> order[i] in keys && order[i] !in todo)
    && (forall k :: k in keys ==> k in todo || k in order)
    && (forall i, j :: 0 <= i < j < |order| ==> order[i] != order[j])
  }

  lemma PendingNext(todo: set<string>, order: seq<string>, keys: set<string>, id: string)
    requires Pending(todo, order, keys) && id in todo
    ensures Pending(todo - {id}, order + [id], keys)
  {
    assert forall k :: k in order ==> k in order + [id];
    assert id in order + [id];
  }

  // A deep copy in cells of its own.
  method Clone(s: Stored) returns (c: Stored)
    requires Trim(s)
    ensures Abs(c) == Abs(s) && Trim(c)
    ensures c.completedAt != null ==> fresh(c.completedAt)
    ensures c.subagents != null ==> fresh(c.subagents)
  {
    c := s;
    if s.completedAt != null {
      var t := new TimeCell(s.completedAt.time);
      c := c.(completedAt := t);
    }
    if s.subagents != null && s.subagents.Length > 0 {
      var a := CopySubagents(s.subagents);
      c := c.(subagents := a);
    }
  }

  method CopySubagents(from: array<SubagentState>) returns (a: array<SubagentState>)
    ensures fresh(a) && a[..] == from[..]
  {
    a := new SubagentState[from.Length](i requires 0 <= i < from.Length reads from => from[i]);
  }

  method TerminalSlugs(subs: Subagents) returns (slugs: set<string>)
    ensures slugs == SlugsOf(Listed(subs))
  {
    slugs := {};
    if subs == null {
      return;
    }
    for i := 0 to subs.Length
      invariant slugs == SlugsOf(subs[..i])
    {
      assert subs[..i + 1] == subs[..i] + [subs[i]];
      SlugsOfNext(subs[..i], subs[i]);
      if subs[i].activity == ACTIVITY_TERMINAL && subs[i].slug != "" {
        slugs := slugs + {subs[i].slug};
      }
    }
    assert subs[..subs.Length] == subs[..];
  }

  lemma SlugsOfNext(subs: seq<SubagentState>, sub: SubagentState)
    ensures SlugsOf(subs + [sub]) == SlugsOf(subs) + (if MarksSlug(sub, sub.slug) then {sub.slug} else {})
  {
    assert forall i :: 0 <= i < |subs| ==> (subs + [sub])[i] == subs[i];
    assert (subs + [sub])[|subs|] == sub;
  }

  // The update merged into the plain fields of a session: what it does not provide stays.
  method ApplyUpdate(s: SessionInfo, u: UpdateInfo, now: Time) returns (r: SessionInfo)
    ensures r == MergeInfo(s, u, now)
  {
    r := ApplyNames(s, u);
    r := r.(contextTokens := u.contextTokens, outputTokens := u.outputTokens, tokenEstimated := u.tokenEstimated);
    if u.maxContextTokens > 0 {
      r := r.(maxContextTokens := u.maxContextTokens);
    }
    r := r.(messageCount := r.messageCount + u.messageCountDelta);
    r := r.(toolCallCount := r.toolCallCount + u.toolCallCountDelta);
    r := r.(compactionCount := r.compactionCount + u.compactionCountDelta);
    if u.startedAt != ZERO_TIME {
      r := r.(startedAt := u.startedAt);
    }
    if u.lastActivityAt != ZERO_TIME {
      r := r.(lastActivityAt := u.lastActivityAt);
    }
    r := r.(lastDataReceivedAt := now);
  }

  method ApplyNames(s: SessionInfo, u: UpdateInfo) returns (r: SessionInfo)
    ensures r == MergeNames(s, u)
  {
    r := s;
    if u.slug != "" {
      r := r.(slug := u.slug);
    }
    if u.activity != "" {
      r := r.(activity := u.activity);
    }
    if u.model != "" {
      r := r.(model := u.model);
    }
    if u.currentTool != "" {
      r := r.(currentTool := u.currentTool);
    }
    if u.workingDir != "" {
      r := r.(workingDir := u.workingDir);
    }
    if u.branch != "" {
      r := r.(branch := u.branch);
    }
  }

  class Monitor {
    const cfg: Config
    const hasSink: bool

    var store: map<string, Stored>
    var cursors: map<string, Cursor>
    var removed: set<string>
    var health: map<string, SourceHealth>
    var seqNo: nat

    // The store as values, what the sink has received, and the cells others may hold.
    ghost var sessions: map<string, SessionState>
    ghost var sent: seq<Event>
    ghost var exposed: set<object>

    constructor (cfg: Config, hasSink: bool)
      ensures this.cfg == cfg && this.hasSink == hasSink
      ensures Valid() && Now() == STARTED && exposed == {}
    {
      this.cfg := cfg;
      this.hasSink := hasSink;
      store := map[];
      cursors := map[];
      removed := {};
      health := map[];
      seqNo := 0;
      sessions := map[];
      sent := [];
      exposed := {};
    }

    ghost predicate Valid()
      reads `store, `sessions, `exposed, StoreTimes(store), StoreLists(store)
    {
      && store.Keys == sessions.Keys
      && forall id :: id in store ==> Holds(store[id], sessions[id], exposed)
    }

    ghost function View(): State
      reads `sessions, `cursors, `removed, `health
    {
      State(sessions, cursors, removed, health)
    }

    ghost function Now(): Monitoring
      reads `sessions, `cursors, `removed, `health, `seqNo, `sent
    {
      Monitoring(View(), seqNo, sent)
    }

    // The batch holds what `out` says, in cells the monitor no longer relies on.
    ghost predicate Holding(b: Batch, out: Outbox)
      reads `exposed, TimesOf(b.updates), ListsOf(b.updates)
    {
      Collected(b, out) && Given(b.updates, exposed)
    }

    /******* Reading *******/

    // Deep copies of all tracked sessions, in the order the store was visited and in cells that are new.
    method Snapshot() returns (states: seq<Stored>, ghost order: seq<string>)
      requires Valid()
      modifies `exposed
      ensures Valid() && old(exposed) <= exposed && fresh(exposed - old(exposed))
      ensures Given(states, exposed - old(exposed)) && Separate(states)
      ensures Visits(order, View().store.Keys)
      ensures Copies(states, InOrder(order, View().store))
    {
      states, order := [], [];
      ghost var before := exposed;
      var todo := store.Keys;
      while todo != {}
        invariant Valid() && before <= exposed && fresh(exposed - before)
        invariant Given(states, exposed - before) && Separate(states)
        invariant Pending(todo, order, sessions.Keys)
        invariant Copies(states, InOrder(order, sessions))
        decreases todo
      {
        var id :| id in todo;
        PendingNext(todo, order, sessions.Keys, id);
        todo := todo - {id};
        states := AppendClone(id, states, order, before);
        order := order + [id];
      }
    }

    method AppendClone(id: string, states: seq<Stored>, ghost order: seq<string>, ghost before: set<object>)
      returns (states': seq<Stored>)
      requires Valid() && id in sessions
      requires before <= exposed && Given(states, exposed - before) && Separate(states)
      requires forall i :: 0 <= i < |order| ==> order[i] in sessions
      requires Copies(states, InOrder(order, sessions))
      modifies `exposed
      ensures Valid() && old(exposed) <= exposed && fresh(exposed - old(exposed))
      ensures Given(states', exposed - before) && Separate(states')
      ensures Copies(states', InOrder(order + [id], sessions))
    {
      assert Holds(store[id], sessions[id], exposed);
      ghost var given := exposed - before;
      var c := Expose(store[id]);
      GivenNext(states, given, c);
      assert exposed - before == given + Cells(c);
      SnapshotNext(states, order, sessions, id, c);
      states' := states + [c];
    }

    method Get(id: string) returns (s: Option<Stored>)
      requires Valid()
      modifies this`exposed
      ensures Valid() && View() == old(View()) && old(exposed) <= exposed
      ensures s.Some? <==> id in View().store
      ensures s.Some? ==>
        Abs(s.value) == View().store[id] && Cells(s.value) <= exposed && fresh(Cells(s.value))
    {
      if id !in store {
        return None;
      }
      var c := Expose(store[id]);
      return Some(c);
    }

    // Slugs of the terminal subagents of all stored sessions.
    method CompletedSlugsNow() returns (slugs: set<string>)
      requires Valid()
      ensures slugs == CompletedSlugs(View().store)
    {
      slugs := {};
      var todo := store.Keys;
      while todo != {}
        invariant todo <= store.Keys
        invariant forall slug :: slug in slugs <==>
          exists id :: id in sessions && id !in todo && slug in SlugsOf(sessions[id].subagents)
        decreases todo
      {
        var id :| id in todo;
        todo := todo - {id};
        assert Holds(store[id], sessions[id], exposed);
        var found := TerminalSlugs(store[id].subagents);
        slugs := slugs + found;
      }
    }

    /******* Writing *******/

    // Replaces a session by one in cells that nobody else holds.
    method Put(id: string, s: Stored)
      requires Valid() && Trim(s) && Apart(s, exposed)
      modifies `store, `sessions
      ensures Valid()
      ensures sessions == old(sessions)[id := Abs(s)]
    {
      store := store[id := s];
      sessions := sessions[id := Abs(s)];
    }

    // The session after an update and the event for it.
    method Transitioned(h: SessionHandle, u: SourceUpdate<Subagents>, now: Time) returns (s: Stored, ev: LifecycleEvent)
      requires Valid()
      ensures Trim(s) && Apart(s, exposed)
      ensures Abs(s) == Updated(View(), h, AbsUpdate(u), now)
      ensures ev == CommitEvent(View(), h, u.info, now)
    {
      if h.id !in store {
        s, ev := Entered(h, u, now);
      } else {
        s, ev := Moved(h, u, now);
      }
    }

    // A session that is not stored, because it is new or because it was removed.
    method Entered(h: SessionHandle, u: SourceUpdate<Subagents>, now: Time) returns (s: Stored, ev: LifecycleEvent)
      requires Valid() && h.id !in store
      ensures Trim(s) && Apart(s, exposed)
      ensures Abs(s) == Updated(View(), h, AbsUpdate(u), now)
      ensures ev == CommitEvent(View(), h, u.info, now)
    {
      s := Merged(Session(BaseInfo(h), null, null), u, now);
      if h.id in removed {
        ev := LifecycleEvent(EventResumed, h.id, h.source, Some(Terminal), Some(Active), now, "");
      } else {
        ev := LifecycleEvent(EventDiscovered, h.id, h.source, None, Some(Active), now, "");
      }
    }

    method Moved(h: SessionHandle, u: SourceUpdate<Subagents>, now: Time) returns (s: Stored, ev: LifecycleEvent)
      requires Valid() && h.id in store
      ensures Trim(s) && Apart(s, exposed)
      ensures Abs(s) == Updated(View(), h, AbsUpdate(u), now)
      ensures ev == CommitEvent(View(), h, u.info, now)
    {
      var existing := store[h.id];
      assert Holds(existing, sessions[h.id], exposed);
      s := Merged(existing, u, now);
      if existing.info.lifecycle == Terminal {
        s := s.(info := s.info.(lifecycle := Active), completedAt := null);
        ev := LifecycleEvent(EventResumed, h.id, h.source, Some(Terminal), Some(Active), now, "");
      } else if u.info.terminal {
        var endedAt := if u.info.endedAt == ZERO_TIME then now else u.info.endedAt;
        var cell := new TimeCell(endedAt);
        s := s.(info := s.info.(lifecycle := Terminal), completedAt := cell);
        ev := LifecycleEvent(EventTerminal, h.id, h.source, Some(Active), Some(Terminal), now, u.info.endReason);
      } else {
        ev := LifecycleEvent(EventUpdated, h.id, h.source, Some(Active), Some(Active), now, "");
      }
    }

    // The update merged into the session; a list of subagents is copied, not shared.
    method Merged(s: Stored, u: SourceUpdate<Subagents>, now: Time) returns (r: Stored)
      requires Trim(s) && Apart(s, exposed)
      ensures Abs(r) == Merge(Abs(s), AbsUpdate(u), now)
      ensures r.completedAt == s.completedAt && r.info.lifecycle == s.info.lifecycle
      ensures Trim(r) && Apart(r, exposed)
    {
      var info := ApplyUpdate(s.info, u.info, now);
      if u.subagents != null && u.subagents.Length > 0 {
        var copy := CopySubagents(u.subagents);
        r := s.(info := info, subagents := copy);
      } else {
        r := s.(info := info);
      }
    }

    // A clone for the sink or a reader, which may keep it.
    method Expose(s: Stored) returns (c: Stored)
      requires Valid() && Trim(s)
      modifies `exposed
      ensures Valid() && Abs(c) == Abs(s) && exposed == old(exposed) + Cells(c) && fresh(Cells(c))
    {
      c := Clone(s);
      forall id | id in store
        ensures Holds(store[id], sessions[id], exposed + Cells(c))
      {
        assert Holds(store[id], sessions[id], exposed);
      }
      exposed := exposed + Cells(c);
    }

    // Commits state and cursor of one update and clones the session for the sink.
    method CommitUpdate(source: string, h: SessionHandle, u: SourceUpdate<Subagents>, cursor: Cursor, now: Time)
      returns (clone: Stored, ev: LifecycleEvent)
      requires Valid()
      modifies `store, `sessions, `cursors, `removed, `exposed
      ensures Valid() && old(exposed) <= exposed && Cells(clone) <= exposed
      ensures View() == Committed(old(View()), source, h, AbsUpdate(u), cursor, now)
      ensures Abs(clone) == Updated(old(View()), h, AbsUpdate(u), now) && fresh(Cells(clone))
      ensures ev == CommitEvent(old(View()), h, u.info, now)
    {
      var s;
      s, ev := Transitioned(h, u, now);
      Store(source, h, s, cursor, AbsUpdate(u), now);
      clone := Expose(s);
    }

    method Store(source: string, h: SessionHandle, s: Stored, cursor: Cursor, ghost u: Update, ghost now: Time)
      requires Valid() && Trim(s) && Apart(s, exposed) && Abs(s) == Updated(View(), h, u, now)
      modifies `store, `sessions, `cursors, `removed
      ensures Valid() && View() == Committed(old(View()), source, h, u, cursor, now)
    {
      cursors := cursors[CursorKey(source, h.id) := cursor];
      if h.id !in store && h.id in removed {
        removed := removed - {h.id};
      } else {
        assert h.id !in store ==> removed == removed - {h.id};
      }
      CommittedIs(old(View()), source, h, u, cursor, now, Abs(s), removed);
      Put(h.id, s);
    }

    // Marks a stored session terminal and clones it for the sink.
    method MarkTerminal(id: string, now: Time) returns (clone: Stored)
      requires Valid() && id in store
      modifies `store, `sessions, `exposed
      ensures Valid() && old(exposed) <= exposed && Cells(clone) <= exposed
      ensures Abs(clone) == Terminated(old(sessions)[id], now)
      ensures sessions == old(sessions)[id := Abs(clone)]
    {
      assert Holds(store[id], sessions[id], exposed);
      var cell := new TimeCell(now);
      var s := store[id];
      s := s.(info := s.info.(lifecycle := Terminal), completedAt := cell);
      Put(id, s);
      clone := Expose(s);
    }

    // An active session becomes terminal in a sweep.
    method EndStored(id: string, kind: LifecycleEventType, reason: string, now: Time, b: Batch, ghost w: World)
      returns (b': Batch, ghost w': World)
      requires Valid() && id in store && w.state == View() && Holding(b, w.out)
      modifies `store, `sessions, `exposed
      ensures Valid() && old(exposed) <= exposed
      ensures w' == EndSession(w, id, kind, reason, now)
      ensures w'.state == View() && Holding(b', w'.out)
    {
      w' := EndSession(w, id, kind, reason, now);
      var source := store[id].info.source;
      assert Holds(store[id], sessions[id], exposed);
      var c := MarkTerminal(id, now);
      var ev := LifecycleEvent(kind, id, source, Some(Active), Some(Terminal), now, reason);
      CopiesNext(b.updates, w.out.updates, c);
      b' := b.(updates := b.updates + [c], lifecycles := b.lifecycles + [ev]);
    }

    /******* Sweeps *******/

    method CheckStale(id: string, now: Time, b: Batch, ghost w: World) returns (b': Batch, ghost w': World)
      requires Valid() && id in store && w.state == View() && Holding(b, w.out)
      modifies `store, `sessions, `exposed
      ensures Valid() && old(exposed) <= exposed && sessions.Keys == old(sessions.Keys)
      ensures w' == Step(cfg, w, StaleCheck(id, now)) && w'.state == View() && Holding(b', w'.out)
    {
      b', w' := b, w;
      var s := store[id];
      assert Holds(s, sessions[id], exposed);
      if s.info.lifecycle == Active && s.info.lastDataReceivedAt != ZERO_TIME
         && s.info.lastDataReceivedAt < now - cfg.staleThreshold {
        b', w' := EndStored(id, EventStale, "no data received past stale threshold", now, b, w);
      }
    }

    method SweepStale(now: Time, b: Batch, ghost w: World)
      returns (b': Batch, ghost order: seq<string>, ghost w': World)
      requires Valid() && w.state == View() && Holding(b, w.out) && cfg.staleThreshold > 0
      modifies `store, `sessions, `exposed
      ensures Valid() && old(exposed) <= exposed && Visits(order, old(sessions.Keys))
      ensures w' == Run(cfg, w, StaleOps(cfg, order, now)) && w'.state == View() && Holding(b', w'.out)
    {
      b', order, w' := b, [], w;
      ghost var ops: seq<Op> := [];
      ghost var keys, given := sessions.Keys, exposed;
      var todo := store.Keys;
      while todo != {}
        invariant Valid() && given <= exposed && sessions.Keys == keys
        invariant Pending(todo, order, keys)
        invariant ops == StaleOps(cfg, order, now)
        invariant w' == Run(cfg, w, ops) && w'.state == View() && Holding(b', w'.out)
        decreases todo
      {
        var id :| id in todo;
        PendingNext(todo, order, keys, id);
        StaleOpsNext(cfg, order, now, id);
        RunOne(cfg, w, ops, StaleCheck(id, now));
        ops := ops + [StaleCheck(id, now)];
        todo, order := todo - {id}, order + [id];
        b', w' := CheckStale(id, now, b', w');
      }
    }

    method CheckSlug(id: string, slugs: set<string>, now: Time, b: Batch, ghost w: World)
      returns (b': Batch, ghost w': World)
      requires Valid() && id in store && w.state == View() && Holding(b, w.out)
      modifies `store, `sessions, `exposed
      ensures Valid() && old(exposed) <= exposed && sessions.Keys == old(sessions.Keys)
      ensures w' == Step(cfg, w, SlugCheck(id, slugs, now)) && w'.state == View() && Holding(b', w'.out)
    {
      b', w' := b, w;
      var s := store[id];
      assert Holds(s, sessions[id], exposed);
      if s.info.lifecycle == Active && s.info.slug != "" && s.info.slug in slugs {
        b', w' := EndStored(id, EventTerminal, "parent reported subagent completion", now, b, w);
      }
    }

    method SweepSlugs(now: Time, b: Batch, ghost w: World)
      returns (b': Batch, ghost order: seq<string>, ghost w': World)
      requires Valid() && w.state == View() && Holding(b, w.out)
      modifies `store, `sessions, `exposed
      ensures Valid() && old(exposed) <= exposed
      ensures CompletedSlugs(w.state.store) != {} ==> Visits(order, old(sessions.Keys))
      ensures w' == Run(cfg, w, SlugOps(CompletedSlugs(w.state.store), order, now)) && w'.state == View()
      ensures Holding(b', w'.out)
    {
      b', order, w' := b, [], w;
      var slugs := CompletedSlugsNow();
      if slugs != {} {
        b', order, w' := SweepMatching(slugs, now, b, w);
      }
    }

    method SweepMatching(slugs: set<string>, now: Time, b: Batch, ghost w: World)
      returns (b': Batch, ghost order: seq<string>, ghost w': World)
      requires Valid() && w.state == View() && Holding(b, w.out) && slugs != {}
      modifies `store, `sessions, `exposed
      ensures Valid() && old(exposed) <= exposed && Visits(order, old(sessions.Keys))
      ensures w' == Run(cfg, w, SlugOps(slugs, order, now)) && w'.state == View() && Holding(b', w'.out)
    {
      b', order, w' := b, [], w;
      ghost var ops: seq<Op> := [];
      ghost var keys, given := sessions.Keys, exposed;
      var todo := store.Keys;
      while todo != {}
        invariant Valid() && given <= exposed && sessions.Keys == keys
        invariant Pending(todo, order, keys)
        invariant ops == SlugOps(slugs, order, now)
        invariant w' == Run(cfg, w, ops) && w'.state == View() && Holding(b', w'.out)
        decreases todo
      {
        var id :| id in todo;
        PendingNext(todo, order, keys, id);
        SlugOpsNext(slugs, order, now, id);
        RunOne(cfg, w, ops, SlugCheck(id, slugs, now));
        ops := ops + [SlugCheck(id, slugs, now)];
        todo, order := todo - {id}, order + [id];
        b', w' := CheckSlug(id, slugs, now, b', w');
      }
    }

    method CheckRetention(id: string, now: Time, b: Batch, ghost w: World) returns (b': Batch, ghost w': World)
      requires Valid() && id in store && w.state == View() && Holding(b, w.out)
      modifies `store, `sessions, `removed
      ensures Valid() && old(sessions.Keys) - {id} <= sessions.Keys <= old(sessions.Keys)
      ensures w' == Step(cfg, w, RetentionCheck(id, now)) && w'.state == View() && Holding(b', w'.out)
    {
      b', w' := b, w;
      var s := store[id];
      assert Holds(s, sessions[id], exposed);
      if s.info.lifecycle != Terminal || s.completedAt == null {
        return;
      }
      if now - s.completedAt.time < cfg.completionRetention {
        return;
      }
      w' := RemoveSession(w, id, now);
      store := store - {id};
      sessions := sessions - {id};
      removed := removed + {id};
      b' := b.(removed := b.removed + [id],
               lifecycles := b.lifecycles
                 + [LifecycleEvent(EventRemoved, id, s.info.source, Some(Terminal), None, now, "retention expired")]);
    }

    method SweepRetention(now: Time, b: Batch, ghost w: World)
      returns (b': Batch, ghost order: seq<string>, ghost w': World)
      requires Valid() && w.state == View() && Holding(b, w.out)
      modifies `store, `sessions, `removed
      ensures Valid() && Visits(order, old(sessions.Keys))
      ensures w' == Run(cfg, w, RetentionOps(order, now)) && w'.state == View() && Holding(b', w'.out)
    {
      b', order, w' := b, [], w;
      ghost var ops: seq<Op> := [];
      ghost var keys, given := sessions.Keys, exposed;
      var todo := store.Keys;
      while todo != {}
        invariant Valid() && todo <= sessions.Keys
        invariant Pending(todo, order, keys)
        invariant ops == RetentionOps(order, now)
        invariant w' == Run(cfg, w, ops) && w'.state == View() && Holding(b', w'.out)
        decreases todo
      {
        var id :| id in todo;
        PendingNext(todo, order, keys, id);
        RetentionOpsNext(order, now, id);
        RunOne(cfg, w, ops, RetentionCheck(id, now));
        ops := ops + [RetentionCheck(id, now)];
        todo, order := todo - {id}, order + [id];
        b', w' := CheckRetention(id, now, b', w');
      }
    }

    /******* Sources *******/

    // What a source hands over: the list of subagents is an array of the source's own.
    method CallParse(parse: Parse, cursor: Cursor) returns (failed: bool, u: SourceUpdate<Subagents>, c: Cursor)
      requires Valid()
      modifies `exposed
      ensures Valid() && old(exposed) <= exposed
      ensures failed <==> parse(cursor).ParseFailed?
      ensures !failed ==> parse(cursor) == Parsed(AbsUpdate(u), c)
      ensures u.subagents != null ==> u.subagents in exposed
    {
      match parse(cursor)
      case ParseFailed =>
        return true, SourceUpdate(NO_UPDATE.info, null), cursor;
      case Parsed(v, next) =>
        if |v.subagents| == 0 {
          return false, SourceUpdate(v.info, null), next;
        }
        var a := new SubagentState[|v.subagents|](i requires 0 <= i < |v.subagents| => v.subagents[i]);
        assert a[..] == v.subagents;
        assert forall id :: id in store ==> Holds(store[id], sessions[id], exposed + {a});
        exposed := exposed + {a};
        return false, SourceUpdate(v.info, a), next;
    }

    method PollHandle(source: string, hs: HandleScript, b: Batch, failures: nat, ghost w: World)
      returns (b': Batch, failures': nat, ghost w': World)
      requires Valid() && w.state == View() && Holding(b, w.out) && failures == w.out.parseFailures
      modifies `store, `sessions, `cursors, `removed, `exposed
      ensures Valid() && old(exposed) <= exposed
      ensures w' == Step(cfg, w, ParseHandle(source, hs.handle, hs.parse, hs.now))
      ensures w'.state == View() && Holding(b', w'.out) && failures' == w'.out.parseFailures
    {
      b', failures', w' := b, failures, Step(cfg, w, ParseHandle(source, hs.handle, hs.parse, hs.now));
      var key := CursorKey(source, hs.handle.id);
      var cursor := if key in cursors then cursors[key] else "";
      var failed, u, next := CallParse(hs.parse, cursor);
      if failed {
        failures' := failures + 1;
        return;
      }
      if u.info.sessionID == "" {
        return;
      }
      b' := CommitHandle(source, hs.handle, u, next, hs.now, b, w);
    }

    // Commits one update and collects the session and the event for it.
    method CommitHandle(source: string, h: SessionHandle, u: SourceUpdate<Subagents>, cursor: Cursor, now: Time,
                        b: Batch, ghost w: World)
      returns (b': Batch)
      requires Valid() && w.state == View() && Holding(b, w.out)
      modifies `store, `sessions, `cursors, `removed, `exposed
      ensures Valid() && old(exposed) <= exposed
      ensures var w' := Commit(w, source, h, old(AbsUpdate(u)), cursor, now); w'.state == View() && Holding(b', w'.out)
    {
      var clone, ev := CommitUpdate(source, h, u, cursor, now);
      CopiesNext(b.updates, w.out.updates, clone);
      b' := b.(updates := b.updates + [clone], lifecycles := b.lifecycles + [ev]);
    }

    // Recomputes status and update time after the counters changed.
    method Record(name: string, sh: SourceHealth, now: Time, b: Batch, ghost w: World)
      returns (b': Batch, ghost w': World)
      requires w.state == View() && Holding(b, w.out)
      modifies `health
      ensures w' == RecordHealth(cfg, w, name, sh, now) && w'.state == View() && Holding(b', w'.out)
    {
      w' := RecordHealth(cfg, w, name, sh, now);
      var previous := if name in health then health[name].status else Healthy;
      var next := sh.(updatedAt := now,
                 status := ComputeStatus(sh.discoverFailures + sh.parseFailures, cfg.healthThreshold));
      health := health[name := next];
      b' := b;
      if next.status != previous {
        b' := b.(health := b.health
          + [Health(name, next.status, next.discoverFailures, next.parseFailures, next.lastError, next.updatedAt)]);
      }
    }

    method CurrentHealth(name: string) returns (sh: SourceHealth)
      ensures sh == HealthOf(View(), name)
    {
      sh := if name in health then health[name] else SourceHealth(0, 0, "", Healthy, ZERO_TIME);
    }

    method SourceUnreachable(name: string, error: string, now: Time, b: Batch, ghost w: World)
      returns (b': Batch, ghost w': World)
      requires w.state == View() && Holding(b, w.out)
      modifies `health
      ensures w' == Step(cfg, w, DiscoverFailed(name, error, now)) && w'.state == View() && Holding(b', w'.out)
    {
      var sh := CurrentHealth(name);
      b', w' := Record(name, sh.(discoverFailures := sh.discoverFailures + 1, lastError := error), now, b, w);
    }

    method SourcePolled(name: string, failures: nat, now: Time, b: Batch, ghost w: World)
      returns (b': Batch, ghost w': World)
      requires w.state == View() && Holding(b, w.out) && failures == w.out.parseFailures
      modifies `health
      ensures w' == Step(cfg, w, EndSource(name, now)) && w'.state == View() && Holding(b', w'.out)
    {
      var sh := CurrentHealth(name);
      if failures > 0 {
        sh := sh.(parseFailures := sh.parseFailures + failures, lastError := "parse failure");
      } else {
        sh := sh.(discoverFailures := 0, parseFailures := 0, lastError := "");
      }
      b', w' := Record(name, sh, now, b, w);
    }

    // The handles of one source.  The context is checked before each; `checks` counts the checks so
    // far and check number `cancelAt` finds it cancelled.
    method PollHandles(name: string, handles: seq<HandleScript>, b: Batch, checks: int, cancelAt: int, ghost w: World)
      returns (done: bool, b': Batch, failures: nat, checks': int, ghost w': World, ghost ops: seq<Op>)
      requires Valid() && w.state == View() && Holding(b, w.out) && w.out.parseFailures == 0
      modifies `store, `sessions, `cursors, `removed, `exposed
      ensures Valid() && old(exposed) <= exposed
      ensures ops <= HandleOps(name, handles) && (done ==> ops == HandleOps(name, handles))
      ensures done <==> !(checks <= cancelAt < checks + |handles|)
      ensures if done then checks' == checks + |handles| else |ops| == cancelAt - checks
      ensures w' == Run(cfg, w, ops)
      ensures w'.state == View() && Holding(b', w'.out) && failures == w'.out.parseFailures
    {
      ghost var all := HandleOps(name, handles);
      b', failures, checks', w', ops := b, 0, checks, w, [];
      var j := 0;
      while j < |handles|
        invariant Valid() && old(exposed) <= exposed
        invariant j <= |handles| && ops == all[..j]
        invariant checks' == checks + j && !(checks <= cancelAt < checks')
        invariant w' == Run(cfg, w, ops) && w'.state == View()
        invariant Holding(b', w'.out) && failures == w'.out.parseFailures
      {
        if checks' == cancelAt {
          return false, b', failures, checks', w', ops;
        }
        checks' := checks' + 1;
        RunNext(cfg, w, all, j);
        b', failures, w' := PollHandle(name, handles[j], b', failures, w');
        ops := all[..j + 1];
        j := j + 1;
      }
      done := true;
    }

    // One source; the context is also checked before it.
    method PollSource(s: SourceScript, b: Batch, checks: int, cancelAt: int, ghost w: World)
      returns (done: bool, b': Batch, checks': int, ghost w': World, ghost ops: seq<Op>)
      requires Valid() && w.state == View() && Holding(b, w.out)
      modifies `store, `sessions, `cursors, `removed, `health, `exposed
      ensures Valid() && old(exposed) <= exposed
      ensures SourcePart(s, checks, cancelAt, done, ops) && (done ==> checks' == checks + SourceChecks(s))
      ensures w' == Run(cfg, w, ops) && w'.state == View() && Holding(b', w'.out)
    {
      if checks == cancelAt {
        return false, b, checks, w, [];
      }
      match s.discovery
      case Unavailable(error) =>
        b', w' := SourceUnreachable(s.name, error, s.now, b, w);
        done, checks', ops := true, checks + 1, SourceOps(s);
        RunSingle(cfg, w, DiscoverFailed(s.name, error, s.now));
      case Found(handles) =>
        var failures;
        ghost var hops;
        done, b', failures, checks', w', hops :=
          PollHandles(s.name, handles, b, checks + 1, cancelAt, Step(cfg, w, BeginSource));
        ops := [BeginSource] + hops;
        RunBegun(cfg, w, hops);
        if done {
          RunOne(cfg, w, ops, EndSource(s.name, s.now));
          b', w' := SourcePolled(s.name, failures, s.now, b', w');
          ops := ops + [EndSource(s.name, s.now)];
        }
    }

    // All sources in order.
    method PollSources(script: seq<SourceScript>, cancelAt: int)
      returns (done: bool, b: Batch, ghost w: World, ghost ops: seq<Op>)
      requires Valid()
      modifies `store, `sessions, `cursors, `removed, `health, `exposed
      ensures Valid() && old(exposed) <= exposed
      ensures ops <= SourcesOps(script) && (done ==> ops == SourcesOps(script))
      ensures done <==> !CancelledAt(script, cancelAt)
      ensures !done ==> |ops| == StepsBefore(script, cancelAt)
      ensures w == Run(cfg, World(old(View()), EMPTY_OUTBOX), ops)
      ensures w.state == View() && Holding(b, w.out)
    {
      ghost var start := World(View(), EMPTY_OUTBOX);
      b, w, ops := Batch([], [], [], []), start, [];
      var checks, i := 0, 0;
      while i < |script|
        invariant Valid() && old(exposed) <= exposed && i <= |script|
        invariant ops == SourcesOps(script[..i])
        invariant checks == Checks(script[..i]) && !(0 <= cancelAt < checks)
        invariant w == Run(cfg, start, ops) && w.state == View() && Holding(b, w.out)
      {
        ghost var next;
        ghost var before := checks;
        done, b, checks, w, next := PollSource(script[i], b, checks, cancelAt, w);
        SourcePartIs(script, i, before, cancelAt, done, next);
        RunConcat(cfg, start, ops, next);
        ops := ops + next;
        if !done {
          return false, b, w, ops;
        }
        i := i + 1;
      }
      assert script[..|script|] == script;
      done := true;
    }

    /******* Sending *******/

    method EmitEvent(at: Time, ghost payload: Payload)
      modifies `seqNo, `sent
      ensures seqNo == old(seqNo) + 1 && sent == old(sent) + [Event(seqNo, at, payload)]
    {
      seqNo := seqNo + 1;
      sent := sent + [Event(seqNo, at, payload)];
    }

    method EmitLifecycles(lcs: seq<LifecycleEvent>)
      modifies `seqNo, `sent
      ensures seqNo == old(seqNo) + |lcs| && sent == old(sent) + LifecycleEvents(old(seqNo), lcs)
    {
      for i := 0 to |lcs|
        invariant seqNo == old(seqNo) + i && sent == old(sent) + LifecycleEvents(old(seqNo), lcs)[..i]
      {
        EmitEvent(lcs[i].at, LifecyclePayload(lcs[i]));
      }
    }

    method EmitHealth(hs: seq<Health>)
      modifies `seqNo, `sent
      ensures seqNo == old(seqNo) + |hs| && sent == old(sent) + HealthEvents(old(seqNo), hs)
    {
      for i := 0 to |hs|
        invariant seqNo == old(seqNo) + i && sent == old(sent) + HealthEvents(old(seqNo), hs)[..i]
      {
        EmitEvent(hs[i].updatedAt, HealthPayload(hs[i]));
      }
    }

    // Everything the poll collected goes to the sink, if there is one.
    method Deliver(b: Batch, now: Time, ghost out: Outbox)
      requires Holding(b, out)
      modifies `seqNo, `sent
      ensures Delivered(hasSink, old(seqNo), old(sent), out, now, seqNo, sent)
    {
      if hasSink {
        EmitLifecycles(b.lifecycles);
        if |b.updates| > 0 || |b.removed| > 0 {
          EmitEvent(now, DeltaPayload(out.updates, b.removed));
        }
        EmitHealth(b.health);
      }
    }

    // The end of a completed poll that started from `m`.
    method Send(b: Batch, now: Time, ghost p: Poll, ghost m: Monitoring, ghost end: World)
      requires Holding(b, end.out) && end == AfterPoll(cfg, m.state, p) && end.state == View() && now == p.clock.delta
      requires m == Monitoring(m.state, seqNo, sent)
      modifies `seqNo, `sent
      ensures View() == old(View()) == AfterRun(cfg, m, Completed(p)).state
      ensures hasSink ==> Now() == AfterRun(cfg, m, Completed(p))
      ensures !hasSink ==> Now() == m.(state := end.state)
    {
      Deliver(b, now, end.out);
      if hasSink {
        CompletedIs(cfg, m, p, Now());
      }
    }

    /******* A poll *******/

    method Sweep(clock: Clock, b: Batch, ghost w: World) returns (b': Batch, ghost orders: Orders, ghost w': World)
      requires Valid() && w.state == View() && Holding(b, w.out)
      modifies `store, `sessions, `removed, `exposed
      ensures Valid() && old(exposed) <= exposed
      ensures SweepOk(cfg, w, clock, orders, w')
      ensures w'.state == View() && Holding(b', w'.out)
    {
      ghost var first, second, third;
      if cfg.staleThreshold > 0 {
        b', first, w' := SweepStale(clock.stale, b, w);
      } else {
        b', w' := b, w;
        first := VisitAll(w.state.store.Keys);
      }
      ghost var w2 := w';
      b', second, w' := SweepSlugs(clock.slug, b', w');
      ghost var w3 := w';
      b', third, w' := SweepRetention(clock.retention, b', w');
      orders := Orders(first, second, third);
    }

    // The sweeps of a poll that started from state `st`.
    method SweepPoll(script: seq<SourceScript>, clock: Clock, b: Batch, ghost st: State, ghost w: World)
      returns (b': Batch, ghost poll: Poll, ghost end: World)
      requires Valid() && w.state == View() && Holding(b, w.out)
      requires w == Run(cfg, World(st, EMPTY_OUTBOX), SourcesOps(script))
      modifies `store, `sessions, `removed, `exposed
      ensures Valid() && old(exposed) <= exposed
      ensures poll.script == script && poll.clock == clock && OrdersOk(cfg, st, poll)
      ensures end == AfterPoll(cfg, st, poll) && end.state == View() && Holding(b', end.out)
    {
      ghost var orders;
      b', orders, end := Sweep(clock, b, w);
      poll := Poll(script, clock, orders);
      SweepIsAfterPoll(cfg, st, poll, w, end);
    }

    // The sweeps and the sending of a poll that started from `m`.
    method Finish(script: seq<SourceScript>, clock: Clock, b: Batch, ghost m: Monitoring, ghost w: World)
      returns (ghost poll: Poll)
      requires Valid() && w.state == View() && Holding(b, w.out)
      requires w == Run(cfg, World(m.state, EMPTY_OUTBOX), SourcesOps(script)) && m == Monitoring(m.state, seqNo, sent)
      modifies this
      ensures Valid() && old(exposed) <= exposed
      ensures poll.script == script && poll.clock == clock && OrdersOk(cfg, m.state, poll)
      ensures View() == AfterRun(cfg, m, Completed(poll)).state
      ensures hasSink ==> Now() == AfterRun(cfg, m, Completed(poll))
      ensures !hasSink ==> Now() == m.(state := View())
    {
      var b';
      ghost var end;
      b', poll, end := SweepPoll(script, clock, b, m.state, w);
      Send(b', clock.delta, poll, m, end);
    }

    // Polls every source, sweeps three times and sends.  `script` is what the sources answer, `clock`
    // what the clock shows, and check number `cancelAt` finds the context cancelled; `poll` is the run
    // it amounts to.
    method PollOnce(script: seq<SourceScript>, clock: Clock, cancelAt: int) returns (done: bool, ghost poll: PollRun)
      requires Valid()
      modifies this
      ensures Valid() && old(exposed) <= exposed
      ensures done <==> !CancelledAt(script, cancelAt)
      ensures done ==> poll.Completed? && poll.poll.script == script && poll.poll.clock == clock
      ensures !done ==> poll == Cancelled(script, StepsBefore(script, cancelAt))
      ensures PollOk(cfg, old(View()), poll)
      ensures hasSink ==> Now() == AfterRun(cfg, old(Now()), poll)
      ensures !hasSink ==> Now() == old(Now()).(state := AfterRun(cfg, old(Now()), poll).state)
    {
      var b;
      ghost var w, ops;
      ghost var before := Now();
      done, b, w, ops := PollSources(script, cancelAt);
      if !done {
        poll := Cancelled(script, StepsBefore(script, cancelAt));
        CancelledIs(cfg, before, script, |ops|, ops);
        return;
      }
      ghost var p := Finish(script, clock, b, before, w);
      poll := Completed(p);
    }
  }

  /******* Writes by others *******/

  // Whoever holds an exposed cell may write to it at any time: the monitor stays valid, its view and
  // every stored session stay what they were.
  method WriteTime(m: Monitor, c: TimeCell, time: Time)
    requires m.Valid() && c in m.exposed
    modifies c
    ensures c.time == time
    ensures m.Valid() && m.Now() == old(m.Now())
    ensures forall id :: id in m.store ==> Abs(m.store[id]) == old(Abs(m.store[id]))
  {
    assert forall id :: id in m.store ==> Holds(m.store[id], m.sessions[id], m.exposed);
    c.time := time;
    forall id | id in m.store
      ensures Holds(m.store[id], m.sessions[id], m.exposed)
    {
      assert m.store[id].completedAt != c;
    }
  }

  method WriteSubagent(m: Monitor, a: array<SubagentState>, i: nat, sub: SubagentState)
    requires m.Valid() && a in m.exposed && i < a.Length
    modifies a
    ensures a[i] == sub
    ensures m.Valid() && m.Now() == old(m.Now())
    ensures forall id :: id in m.store ==> Abs(m.store[id]) == old(Abs(m.store[id]))
  {
    assert forall id :: id in m.store ==> Holds(m.store[id], m.sessions[id], m.exposed);
    a[i] := sub;
    forall id | id in m.store
      ensures Holds(m.store[id], m.sessions[id], m.exposed)
    {
      assert m.store[id].subagents != a;
    }
  }

  // With a sink everything collected has been sent and numbered on, without one nothing.
  ghost predicate Delivered(hasSink: bool, seqNo: nat, sent: seq<Event>, out: Outbox, now: Time, seqNo': nat,
                            sent': seq<Event>) {
    if hasSink then sent' == sent + Emitted(seqNo, out, now) && seqNo' == seqNo + |Emitted(seqNo, out, now)|
    else sent' == sent && seqNo' == seqNo
  }

  // The three sweeps from `w`, in the given orders, end in `w'`.
  ghost predicate SweepOk(cfg: Config, w: World, clock: Clock, orders: Orders, w': World) {
    var w2 := Run(cfg, w, StaleOps(cfg, orders.stale, clock.stale));
    var w3 := Run(cfg, w2, SlugOps(CompletedSlugs(w2.state.store), orders.slug, clock.slug));
    && w' == Run(cfg, w3, RetentionOps(orders.retention, clock.retention))
    && Visits(orders.stale, w.state.store.Keys)
    && (CompletedSlugs(w2.state.store) != {} ==> Visits(orders.slug, w2.state.store.Keys))
    && Visits(orders.retention, w3.state.store.Keys)
  }

  lemma SweepIsAfterPoll(cfg: Config, st: State, p: Poll, w: World, end: World)
    requires w == Run(cfg, World(st, EMPTY_OUTBOX), SourcesOps(p.script)) && SweepOk(cfg, w, p.clock, p.orders, end)
    ensures OrdersOk(cfg, st, p) && AfterPoll(cfg, st, p) == end
  {
  }

  ghost function VisitAll(keys: set<string>): (order: seq<string>)
    ensures Visits(order, keys)
  {
    if keys == {} then [] else
      var k :| k in keys;
      [k] + VisitAll(keys - {k})
  }

  lemma CompletedIs(cfg: Config, m: Monitoring, p: Poll, m': Monitoring)
    requires var end := AfterPoll(cfg, m.state, p);
             m'.state == end.state && Delivered(true, m.seqNo, m.sent, end.out, p.clock.delta, m'.seqNo, m'.sent)
    ensures AfterRun(cfg, m, Completed(p)) == m'
  {
  }

  lemma CancelledIs(cfg: Config, m: Monitoring, script: seq<SourceScript>, steps: nat, ops: seq<Op>)
    requires ops <= SourcesOps(script) && |ops| == steps
    ensures PollOk(cfg, m.state, Cancelled(script, steps))
    ensures AfterRun(cfg, m, Cancelled(script, steps)) == m.(state := Run(cfg, World(m.state, EMPTY_OUTBOX), ops).state)
  {
    assert SourcesOps(script)[..steps] == ops;
  }

  lemma RunNext(cfg: Config, w: World, ops: seq<Op>, j: nat)
    requires j < |ops|
    ensures Run(cfg, w, ops[..j + 1]) == Step(cfg, Run(cfg, w, ops[..j]), ops[j])
  {
    assert ops[..j + 1][..j] == ops[..j];
  }

  lemma RunBegun(cfg: Config, w: World, ops: seq<Op>)
    ensures Run(cfg, w, [BeginSource] + ops) == Run(cfg, Step(cfg, w, BeginSource), ops)
  {
    RunSingle(cfg, w, BeginSource);
    RunConcat(cfg, w, [BeginSource], ops);
  }

  // What polling source `s` from check number `checks` on comes to.
  ghost predicate SourcePart(s: SourceScript, checks: int, cancelAt: int, done: bool, ops: seq<Op>) {
    && ops <= SourceOps(s) && (done ==> ops == SourceOps(s))
    && (done <==> !(checks <= cancelAt < checks + SourceChecks(s)))
    && (!done ==> |ops| == cancelAt - checks)
  }

  // Some of the steps of source `i` after all steps of the sources before it.
  lemma SourcePartIs(script: seq<SourceScript>, i: nat, checks: nat, cancelAt: int, done: bool, ops: seq<Op>)
    requires i < |script| && checks == Checks(script[..i]) && !(0 <= cancelAt < checks)
    requires SourcePart(script[i], checks, cancelAt, done, ops)
    ensures SourcesOps(script[..i]) + ops <= SourcesOps(script)
    ensures SourcesOps(script[..i + 1]) == SourcesOps(script[..i]) + SourceOps(script[i])
    ensures Checks(script[..i + 1]) == checks + SourceChecks(script[i])
    ensures done ==> !(0 <= cancelAt < Checks(script[..i + 1]))
    ensures !done ==> CancelledAt(script, cancelAt) &&
                        |SourcesOps(script[..i])| + |ops| == StepsBefore(script, cancelAt)
  {
    ChecksNext(script, i);
    ChecksPrefix(script, i + 1);
    SourcesOpsNext(script, i);
    SourcesOpsPrefix(script, i + 1);
    PrefixOfPrefix(SourcesOps(script[..i]), ops, SourceOps(script[i]), SourcesOps(script));
    if !done {
      StepsBeforeIn(script, i, cancelAt);
    }
  }

  lemma PrefixOfPrefix<T>(a: seq<T>, b: seq<T>, c: seq<T>, all: seq<T>)
    requires b <= c && a + c <= all
    ensures a + b <= all
  {
    assert a + b <= a + c;
  }
}
