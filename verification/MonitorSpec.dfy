/**
 One poll of the monitor as a sequence of small steps on values.

 Sources, clock readings and the iteration order of Go maps are inputs: a `Poll` carries what
 every source answers, what the clock shows, and the orders in which the three sweeps visit the
 store.  `PollOps` turns it into the list of critical sections the poll goes through, and `Run`
 executes them; a prefix of the list is a poll seen half-way, or a poll whose context was
 cancelled.  Class `Monitor` (Monitor.dfy) is proved to do exactly this.
 */
module MonitorSpec {
  import opened Wrappers
  import opened Session
  import opened Collections

  /******* State *******/

  datatype Config = Config(
    staleThreshold: Duration, completionRetention: Duration, healthThreshold: int)

  datatype HealthStatus = Healthy | Degraded | Failed

  datatype SourceHealth = SourceHealth(
    discoverFailures: int, parseFailures: int, lastError: string, status: HealthStatus, updatedAt: Time)
  {
    function TotalFailures(): int {
      discoverFailures + parseFailures
    }
  }

  datatype Health = Health(
    source: string, status: HealthStatus, discoverFailures: int, parseFailures: int,
    lastError: string, updatedAt: Time)

  datatype State = State(
    store: map<string, SessionState>, cursors: map<string, Cursor>,
    removed: set<string>, health: map<string, SourceHealth>)

  const INITIAL: State := State(map[], map[], {}, map[])

  // What a poll has collected to be sent once it is over.
  datatype Outbox = Outbox(
    updates: seq<SessionState>, removed: seq<string>,
    lifecycles: seq<LifecycleEvent>, health: seq<Health>, parseFailures: nat)

  const EMPTY_OUTBOX: Outbox := Outbox([], [], [], [], 0)

  datatype World = World(state: State, out: Outbox)

  function CursorKey(source: string, id: string): string {
    source + ":" + id
  }

  function CursorAt(st: State, key: string): Cursor {
    if key in st.cursors then st.cursors[key] else ""
  }

  /******* Steps *******/

  datatype Op =
    | DiscoverFailed(source: string, error: string, now: Time)
    | BeginSource
    | ParseHandle(source: string, handle: SessionHandle, parse: Parse, now: Time)
    | EndSource(source: string, now: Time)
    | StaleCheck(id: string, now: Time)
    | SlugCheck(id: string, slugs: set<string>, now: Time)
    | RetentionCheck(id: string, now: Time)

  function ComputeStatus(totalFailures: int, threshold: int): HealthStatus {
    if totalFailures >= 2 * threshold then Failed
    else if totalFailures >= threshold then Degraded
    else Healthy
  }

  // Names are replaced by the ones the update provides.
  function MergeNames(s: SessionInfo, u: UpdateInfo): SessionInfo {
    s.(slug := Latest(s.slug, u.slug),
       activity := Latest(s.activity, u.activity),
       model := Latest(s.model, u.model),
       currentTool := Latest(s.currentTool, u.currentTool),
       workingDir := Latest(s.workingDir, u.workingDir),
       branch := Latest(s.branch, u.branch))
  }

  // Counters add up, token counts are overwritten, times and the token limit are taken if provided.
  function MergeInfo(s: SessionInfo, u: UpdateInfo, now: Time): SessionInfo {
    MergeNames(s, u).(
      contextTokens := u.contextTokens,
      outputTokens := u.outputTokens,
      tokenEstimated := u.tokenEstimated,
      maxContextTokens := if u.maxContextTokens > 0 then u.maxContextTokens else s.maxContextTokens,
      messageCount := s.messageCount + u.messageCountDelta,
      toolCallCount := s.toolCallCount + u.toolCallCountDelta,
      compactionCount := s.compactionCount + u.compactionCountDelta,
      startedAt := if u.startedAt != ZERO_TIME then u.startedAt else s.startedAt,
      lastActivityAt := if u.lastActivityAt != ZERO_TIME then u.lastActivityAt else s.lastActivityAt,
      lastDataReceivedAt := now)
  }

  // Two updates as one: the second's names where it has any, the sums of the deltas.
  function Combined(u: UpdateInfo, v: UpdateInfo): UpdateInfo {
    v.(slug := Latest(u.slug, v.slug),
       activity := Latest(u.activity, v.activity),
       model := Latest(u.model, v.model),
       currentTool := Latest(u.currentTool, v.currentTool),
       workingDir := Latest(u.workingDir, v.workingDir),
       branch := Latest(u.branch, v.branch),
       maxContextTokens := if v.maxContextTokens > 0 then v.maxContextTokens else u.maxContextTokens,
       messageCountDelta := u.messageCountDelta + v.messageCountDelta,
       toolCallCountDelta := u.toolCallCountDelta + v.toolCallCountDelta,
       compactionCountDelta := u.compactionCountDelta + v.compactionCountDelta,
       startedAt := if v.startedAt != ZERO_TIME then v.startedAt else u.startedAt,
       lastActivityAt := if v.lastActivityAt != ZERO_TIME then v.lastActivityAt else u.lastActivityAt)
  }

  // Merging two updates one after the other is merging them as one, whatever they provide.
  lemma MergeComposes(s: SessionInfo, u: UpdateInfo, v: UpdateInfo, t: Time, now: Time)
    ensures MergeInfo(MergeInfo(s, u, t), v, now) == MergeInfo(s, Combined(u, v), now)
  {
  }

  function BaseInfo(h: SessionHandle): SessionInfo {
    SessionInfo(h.id, h.source, "", "", Active, 0, 0, false, 0, "", "", "", "", 0, 0, 0,
                h.startedAt, ZERO_TIME, ZERO_TIME)
  }

  // The four ways an update can change a session.
  datatype Transition = Discover | Resume | End | Refresh

  function TransitionOf(tracked: Option<LifecycleState>, wasRemoved: bool, terminal: bool): Transition {
    match tracked
    case None => if wasRemoved then Resume else Discover
    case Some(Terminal) => Resume
    case Some(Active) => if terminal then End else Refresh
  }

  function TransitionEvent(t: Transition, h: SessionHandle, u: UpdateInfo, now: Time): LifecycleEvent {
    match t
    case Discover => LifecycleEvent(EventDiscovered, h.id, h.source, None, Some(Active), now, "")
    case Resume => LifecycleEvent(EventResumed, h.id, h.source, Some(Terminal), Some(Active), now, "")
    case End => LifecycleEvent(EventTerminal, h.id, h.source, Some(Active), Some(Terminal), now, u.endReason)
    case Refresh => LifecycleEvent(EventUpdated, h.id, h.source, Some(Active), Some(Active), now, "")
  }

  function EndTime(u: UpdateInfo, now: Time): Time {
    if u.endedAt == ZERO_TIME then now else u.endedAt
  }

  function Merge(s: SessionState, u: Update, now: Time): SessionState {
    s.(info := MergeInfo(s.info, u.info, now), subagents := if |u.subagents| > 0 then u.subagents else s.subagents)
  }

  function Tracked(st: State, id: string): Option<LifecycleState> {
    if id in st.store then Some(st.store[id].info.lifecycle) else None
  }

  // The session after an update.
  function Updated(st: State, h: SessionHandle, u: Update, now: Time): SessionState {
    var s := if h.id in st.store then st.store[h.id] else Session(BaseInfo(h), None, []);
    var merged := Merge(s, u, now);
    match TransitionOf(Tracked(st, h.id), h.id in st.removed, u.info.terminal)
    case Discover => merged
    case Resume => merged.(info := merged.info.(lifecycle := Active), completedAt := None)
    case End => merged.(info := merged.info.(lifecycle := Terminal), completedAt := Some(EndTime(u.info, now)))
    case Refresh => merged
  }

  function CommitEvent(st: State, h: SessionHandle, u: UpdateInfo, now: Time): LifecycleEvent {
    TransitionEvent(TransitionOf(Tracked(st, h.id), h.id in st.removed, u.terminal), h, u, now)
  }

  // State and cursor are committed together; a session that comes back is no longer removed.
  function Committed(st: State, source: string, h: SessionHandle, u: Update, cursor: Cursor, now: Time): State {
    State(st.store[h.id := Updated(st, h, u, now)],
          st.cursors[CursorKey(source, h.id) := cursor],
          if h.id in st.store then st.removed else st.removed - {h.id},
          st.health)
  }

  lemma CommittedIs(st: State, source: string, h: SessionHandle, u: Update, cursor: Cursor, now: Time,
                    s: SessionState, removed: set<string>)
    requires s == Updated(st, h, u, now)
    requires removed == if h.id in st.store then st.removed else st.removed - {h.id}
    ensures Committed(st, source, h, u, cursor, now)
         == State(st.store[h.id := s], st.cursors[CursorKey(source, h.id) := cursor], removed, st.health)
  {
  }

  function Commit(w: World, source: string, h: SessionHandle, u: Update, cursor: Cursor, now: Time): World {
    World(
      Committed(w.state, source, h, u, cursor, now),
      w.out.(updates := w.out.updates + [Updated(w.state, h, u, now)],
             lifecycles := w.out.lifecycles + [CommitEvent(w.state, h, u.info, now)]))
  }

  function HealthOf(st: State, name: string): SourceHealth {
    if name in st.health then st.health[name] else SourceHealth(0, 0, "", Healthy, ZERO_TIME)
  }

  function AfterDiscoverFailure(sh: SourceHealth, error: string): SourceHealth {
    sh.(discoverFailures := sh.discoverFailures + 1, lastError := error)
  }

  // Parse failures add up; a source without any starts afresh.
  function AfterSource(sh: SourceHealth, failed: nat): SourceHealth {
    if failed > 0 then
      sh.(parseFailures := sh.parseFailures + failed, lastError := "parse failure")
    else
      sh.(discoverFailures := 0, parseFailures := 0, lastError := "")
  }

  // Recomputes the status after the counters changed; a change of status is an event.
  function RecordHealth(cfg: Config, w: World, name: string, sh: SourceHealth, now: Time): World {
    var next := sh.(status := ComputeStatus(sh.TotalFailures(), cfg.healthThreshold), updatedAt := now);
    var ev := Health(name, next.status, next.discoverFailures, next.parseFailures, next.lastError, now);
    World(
      w.state.(health := w.state.health[name := next]),
      if next.status != HealthOf(w.state, name).status then w.out.(health := w.out.health + [ev]) else w.out)
  }

  function Terminated(s: SessionState, now: Time): SessionState {
    s.(info := s.info.(lifecycle := Terminal), completedAt := Some(now))
  }

  // An active session becomes terminal without an update.
  function EndSession(w: World, id: string, kind: LifecycleEventType, reason: string, now: Time): World
    requires id in w.state.store
  {
    var s := Terminated(w.state.store[id], now);
    var ev := LifecycleEvent(kind, id, s.info.source, Some(Active), Some(Terminal), now, reason);
    World(
      w.state.(store := w.state.store[id := s]),
      w.out.(updates := w.out.updates + [s], lifecycles := w.out.lifecycles + [ev]))
  }

  function RemoveSession(w: World, id: string, now: Time): World
    requires id in w.state.store
  {
    var ev := LifecycleEvent(EventRemoved, id, w.state.store[id].info.source,
                             Some(Terminal), None, now, "retention expired");
    World(
      w.state.(store := w.state.store - {id}, removed := w.state.removed + {id}),
      w.out.(removed := w.out.removed + [id], lifecycles := w.out.lifecycles + [ev]))
  }

  predicate IsStale(cfg: Config, s: SessionInfo, now: Time) {
    && s.lifecycle == Active
    && s.lastDataReceivedAt != ZERO_TIME
    && s.lastDataReceivedAt < now - cfg.staleThreshold
  }

  predicate SlugDone(s: SessionInfo, slugs: set<string>) {
    s.lifecycle == Active && s.slug != "" && s.slug in slugs
  }

  predicate Expired(cfg: Config, s: SessionState, now: Time) {
    s.info.lifecycle == Terminal && s.completedAt.Some? && now - s.completedAt.value >= cfg.completionRetention
  }

  predicate MarksSlug(sub: SubagentState, slug: string) {
    sub.activity == ACTIVITY_TERMINAL && sub.slug == slug && slug != ""
  }

  // Slugs of the terminal subagents in a list.
  function SlugsOf(subs: seq<SubagentState>): set<string> {
    set i | 0 <= i < |subs| && MarksSlug(subs[i], subs[i].slug) :: subs[i].slug
  }

  // Slugs of the terminal subagents of all stored sessions.
  function CompletedSlugs(store: map<string, SessionState>): set<string> {
    set id, slug | id in store && slug in SlugsOf(store[id].subagents) :: slug
  }

  function Step(cfg: Config, w: World, op: Op): World {
    match op
    case DiscoverFailed(name, error, now) =>
      RecordHealth(cfg, w, name, AfterDiscoverFailure(HealthOf(w.state, name), error), now)
    case BeginSource =>
      w.(out := w.out.(parseFailures := 0))
    case ParseHandle(source, h, parse, now) =>
      (match parse(CursorAt(w.state, CursorKey(source, h.id)))
       case ParseFailed => w.(out := w.out.(parseFailures := w.out.parseFailures + 1))
       case Parsed(u, cursor) => if u.info.sessionID == "" then w else Commit(w, source, h, u, cursor, now))
    case EndSource(name, now) =>
      RecordHealth(cfg, w, name, AfterSource(HealthOf(w.state, name), w.out.parseFailures), now)
    case StaleCheck(id, now) =>
      if id in w.state.store && IsStale(cfg, w.state.store[id].info, now)
      then EndSession(w, id, EventStale, "no data received past stale threshold", now) else w
    case SlugCheck(id, slugs, now) =>
      if id in w.state.store && SlugDone(w.state.store[id].info, slugs)
      then EndSession(w, id, EventTerminal, "parent reported subagent completion", now) else w
    case RetentionCheck(id, now) =>
      if id in w.state.store && Expired(cfg, w.state.store[id], now)
      then RemoveSession(w, id, now) else w
  }

  function Run(cfg: Config, w: World, ops: seq<Op>): World {
    if ops == [] then w else Step(cfg, Run(cfg, w, ops[..|ops| - 1]), ops[|ops| - 1])
  }

  lemma RunOne(cfg: Config, w: World, ops: seq<Op>, op: Op)
    ensures Run(cfg, w, ops + [op]) == Step(cfg, Run(cfg, w, ops), op)
  {
    assert (ops + [op])[..|ops + [op]| - 1] == ops;
  }

  lemma RunSingle(cfg: Config, w: World, op: Op)
    ensures Run(cfg, w, [op]) == Step(cfg, w, op)
  {
    assert [op][..0] == [];
  }

  lemma {:induction false} RunConcat(cfg: Config, w: World, a: seq<Op>, b: seq<Op>)
    ensures Run(cfg, w, a + b) == Run(cfg, Run(cfg, w, a), b)
  {
    if b == [] {
      assert a + b == a;
    } else {
      assert (a + b)[..|a + b| - 1] == a + b[..|b| - 1];
      RunConcat(cfg, w, a, b[..|b| - 1]);
    }
  }

  /******* A poll *******/

  datatype HandleScript = HandleScript(handle: SessionHandle, parse: Parse, now: Time)

  datatype Discovery = Unavailable(error: string) | Found(handles: seq<HandleScript>)

  // One source in one poll; `now` is the clock when its health is recorded.
  datatype SourceScript = SourceScript(name: string, discovery: Discovery, now: Time)

  datatype Clock = Clock(stale: Time, slug: Time, retention: Time, delta: Time)

  // The order in which each sweep visits the store.
  datatype Orders = Orders(stale: seq<string>, slug: seq<string>, retention: seq<string>)

  datatype Poll = Poll(script: seq<SourceScript>, clock: Clock, orders: Orders)

  function HandleOps(name: string, handles: seq<HandleScript>): (ops: seq<Op>)
    ensures |ops| == |handles|
  {
    seq(|handles|, i requires 0 <= i < |handles| =>
      ParseHandle(name, handles[i].handle, handles[i].parse, handles[i].now))
  }

  function SourceOps(s: SourceScript): seq<Op> {
    match s.discovery
    case Unavailable(error) => [DiscoverFailed(s.name, error, s.now)]
    case Found(handles) => [BeginSource] + HandleOps(s.name, handles) + [EndSource(s.name, s.now)]
  }

  function SourcesOps(script: seq<SourceScript>): seq<Op> {
    if script == [] then [] else SourcesOps(script[..|script| - 1]) + SourceOps(script[|script| - 1])
  }

  lemma SourcesOpsNext(script: seq<SourceScript>, i: nat)
    requires i < |script|
    ensures SourcesOps(script[..i + 1]) == SourcesOps(script[..i]) + SourceOps(script[i])
  {
    assert script[..i + 1][..i] == script[..i];
  }

  lemma {:induction false} SourcesOpsPrefix(script: seq<SourceScript>, i: nat)
    requires i <= |script|
    ensures SourcesOps(script[..i]) <= SourcesOps(script)
    decreases |script| - i
  {
    if i == |script| {
      assert script[..i] == script;
    } else {
      SourcesOpsNext(script, i);
      SourcesOpsPrefix(script, i + 1);
    }
  }

  predicate IsSweepOp(op: Op) {
    op.StaleCheck? || op.SlugCheck? || op.RetentionCheck?
  }

  lemma {:induction false} SourcesOpsAreNoSweeps(script: seq<SourceScript>)
    ensures forall op :: op in SourcesOps(script) ==> !IsSweepOp(op)
  {
    if script != [] {
      SourcesOpsAreNoSweeps(script[..|script| - 1]);
    }
  }

  // How often a poll looks at its context: before each source and before each handle.
  function SourceChecks(s: SourceScript): nat {
    match s.discovery
    case Unavailable(_) => 1
    case Found(handles) => 1 + |handles|
  }

  function Checks(script: seq<SourceScript>): nat {
    if script == [] then 0 else Checks(script[..|script| - 1]) + SourceChecks(script[|script| - 1])
  }

  // The steps done before check number `at`.
  function StepsBefore(script: seq<SourceScript>, at: nat): (steps: nat)
    requires at < Checks(script)
    ensures steps <= |SourcesOps(script)|
  {
    var n := |script| - 1;
    if at < Checks(script[..n]) then StepsBefore(script[..n], at)
    else |SourcesOps(script[..n])| + at - Checks(script[..n])
  }

  // The context is found cancelled by one of the checks.
  predicate CancelledAt(script: seq<SourceScript>, at: int) {
    0 <= at < Checks(script)
  }

  lemma ChecksNext(script: seq<SourceScript>, i: nat)
    requires i < |script|
    ensures Checks(script[..i + 1]) == Checks(script[..i]) + SourceChecks(script[i])
  {
    assert script[..i + 1][..i] == script[..i];
  }

  // Checks of source `i` come after those of the sources before it and before those of the rest.
  lemma {:induction false} StepsBeforeIn(script: seq<SourceScript>, i: nat, at: nat)
    requires i < |script| && Checks(script[..i]) <= at < Checks(script[..i]) + SourceChecks(script[i])
    ensures at < Checks(script)
    ensures StepsBefore(script, at) == |SourcesOps(script[..i])| + at - Checks(script[..i])
    decreases |script|
  {
    var n := |script| - 1;
    assert Checks(script) == Checks(script[..n]) + SourceChecks(script[n]);
    if i < n {
      assert script[..n][..i] == script[..i] && script[..n][i] == script[i];
      StepsBeforeIn(script[..n], i, at);
    } else {
      assert script[..i] == script[..n];
    }
  }

  lemma {:induction false} ChecksPrefix(script: seq<SourceScript>, i: nat)
    requires i <= |script|
    ensures Checks(script[..i]) <= Checks(script)
    decreases |script|
  {
    if i == |script| {
      assert script[..i] == script;
    } else {
      assert script[..|script| - 1][..i] == script[..i];
      ChecksPrefix(script[..|script| - 1], i);
    }
  }

  function StaleOps(cfg: Config, order: seq<string>, now: Time): seq<Op> {
    if cfg.staleThreshold > 0 then seq(|order|, i requires 0 <= i < |order| => StaleCheck(order[i], now)) else []
  }

  function SlugOps(slugs: set<string>, order: seq<string>, now: Time): seq<Op> {
    if slugs != {} then seq(|order|, i requires 0 <= i < |order| => SlugCheck(order[i], slugs, now)) else []
  }

  function RetentionOps(order: seq<string>, now: Time): seq<Op> {
    seq(|order|, i requires 0 <= i < |order| => RetentionCheck(order[i], now))
  }

  lemma StaleOpsNext(cfg: Config, order: seq<string>, now: Time, id: string)
    requires cfg.staleThreshold > 0
    ensures StaleOps(cfg, order + [id], now) == StaleOps(cfg, order, now) + [StaleCheck(id, now)]
  {
  }

  lemma SlugOpsNext(slugs: set<string>, order: seq<string>, now: Time, id: string)
    requires slugs != {}
    ensures SlugOps(slugs, order + [id], now) == SlugOps(slugs, order, now) + [SlugCheck(id, slugs, now)]
  {
  }

  lemma RetentionOpsNext(order: seq<string>, now: Time, id: string)
    ensures RetentionOps(order + [id], now) == RetentionOps(order, now) + [RetentionCheck(id, now)]
  {
  }

  // The worlds at the start of the three sweeps and at the end of the last one.
  function BeforeStale(cfg: Config, st: State, p: Poll): World {
    Run(cfg, World(st, EMPTY_OUTBOX), SourcesOps(p.script))
  }

  function BeforeSlug(cfg: Config, st: State, p: Poll): World {
    Run(cfg, BeforeStale(cfg, st, p), StaleOps(cfg, p.orders.stale, p.clock.stale))
  }

  function BeforeRetention(cfg: Config, st: State, p: Poll): World {
    var w := BeforeSlug(cfg, st, p);
    Run(cfg, w, SlugOps(CompletedSlugs(w.state.store), p.orders.slug, p.clock.slug))
  }

  function AfterPoll(cfg: Config, st: State, p: Poll): World {
    Run(cfg, BeforeRetention(cfg, st, p), RetentionOps(p.orders.retention, p.clock.retention))
  }

  // All steps of the poll in order.
  function PollOps(cfg: Config, st: State, p: Poll): seq<Op> {
    SourcesOps(p.script)
    + StaleOps(cfg, p.orders.stale, p.clock.stale)
    + SlugOps(CompletedSlugs(BeforeSlug(cfg, st, p).state.store), p.orders.slug, p.clock.slug)
    + RetentionOps(p.orders.retention, p.clock.retention)
  }

  lemma PollIsItsSteps(cfg: Config, st: State, p: Poll)
    ensures AfterPoll(cfg, st, p) == Run(cfg, World(st, EMPTY_OUTBOX), PollOps(cfg, st, p))
  {
    var w := World(st, EMPTY_OUTBOX);
    var a := SourcesOps(p.script);
    var b := StaleOps(cfg, p.orders.stale, p.clock.stale);
    var c := SlugOps(CompletedSlugs(BeforeSlug(cfg, st, p).state.store), p.orders.slug, p.clock.slug);
    RunConcat(cfg, w, a, b);
    RunConcat(cfg, w, a + b, c);
    RunConcat(cfg, w, a + b + c, RetentionOps(p.orders.retention, p.clock.retention));
  }

  ghost predicate OrdersOk(cfg: Config, st: State, p: Poll) {
    && Visits(p.orders.stale, BeforeStale(cfg, st, p).state.store.Keys)
    && (CompletedSlugs(BeforeSlug(cfg, st, p).state.store) != {} ==>
          Visits(p.orders.slug, BeforeSlug(cfg, st, p).state.store.Keys))
    && Visits(p.orders.retention, BeforeRetention(cfg, st, p).state.store.Keys)
  }

  /******* What is sent *******/

  datatype Payload =
    | LifecyclePayload(lifecycle: LifecycleEvent)
    | DeltaPayload(updates: seq<SessionState>, removed: seq<string>)
    | HealthPayload(health: Health)

  datatype Event = Event(seqNo: nat, at: Time, payload: Payload)

  // Numbers events from the last number used.
  function LifecycleEvents(seqNo: nat, lcs: seq<LifecycleEvent>): (evs: seq<Event>)
    ensures |evs| == |lcs|
  {
    seq(|lcs|, i requires 0 <= i < |lcs| => Event(seqNo + i + 1, lcs[i].at, LifecyclePayload(lcs[i])))
  }

  function DeltaEvents(seqNo: nat, out: Outbox, now: Time): seq<Event> {
    if |out.updates| > 0 || |out.removed| > 0 then
      [Event(seqNo + 1, now, DeltaPayload(out.updates, out.removed))]
    else
      []
  }

  function HealthEvents(seqNo: nat, hs: seq<Health>): (evs: seq<Event>)
    ensures |evs| == |hs|
  {
    seq(|hs|, i requires 0 <= i < |hs| => Event(seqNo + i + 1, hs[i].updatedAt, HealthPayload(hs[i])))
  }

  // Lifecycle events first, then at most one delta, then health events.
  function Emitted(seqNo: nat, out: Outbox, now: Time): seq<Event> {
    var ls := LifecycleEvents(seqNo, out.lifecycles);
    var ds := DeltaEvents(seqNo + |ls|, out, now);
    ls + ds + HealthEvents(seqNo + |ls| + |ds|, out.health)
  }

  /******* Runs of polls *******/

  // The monitor between polls, with everything its sink has received.
  datatype Monitoring = Monitoring(state: State, seqNo: nat, sent: seq<Event>)

  const STARTED: Monitoring := Monitoring(INITIAL, 0, [])

  // A poll runs to its end, or its context is cancelled after some of the source steps.
  datatype PollRun = Completed(poll: Poll) | Cancelled(script: seq<SourceScript>, steps: nat)

  ghost predicate PollOk(cfg: Config, st: State, r: PollRun) {
    match r
    case Completed(p) => OrdersOk(cfg, st, p)
    case Cancelled(script, steps) => steps <= |SourcesOps(script)|
  }

  function AfterRun(cfg: Config, m: Monitoring, r: PollRun): Monitoring {
    match r
    case Completed(p) =>
      var w := AfterPoll(cfg, m.state, p);
      var evs := Emitted(m.seqNo, w.out, p.clock.delta);
      Monitoring(w.state, m.seqNo + |evs|, m.sent + evs)
    case Cancelled(script, steps) =>
      var ops := SourcesOps(script);
      m.(state := Run(cfg, World(m.state, EMPTY_OUTBOX), if steps <= |ops| then ops[..steps] else ops).state)
  }

  // The steps a run goes through.
  function RunOps(cfg: Config, st: State, r: PollRun): seq<Op> {
    match r
    case Completed(p) => PollOps(cfg, st, p)
    case Cancelled(script, steps) =>
      if steps <= |SourcesOps(script)| then SourcesOps(script)[..steps] else SourcesOps(script)
  }

  lemma RunOpsAreTheRun(cfg: Config, m: Monitoring, r: PollRun)
    ensures AfterRun(cfg, m, r).state == Run(cfg, World(m.state, EMPTY_OUTBOX), RunOps(cfg, m.state, r)).state
  {
    if r.Completed? {
      PollIsItsSteps(cfg, m.state, r.poll);
    }
  }

  function AfterRuns(cfg: Config, m: Monitoring, rs: seq<PollRun>): Monitoring {
    if rs == [] then m else AfterRun(cfg, AfterRuns(cfg, m, rs[..|rs| - 1]), rs[|rs| - 1])
  }

  ghost predicate RunsOk(cfg: Config, m: Monitoring, rs: seq<PollRun>) {
    rs != [] ==>
      RunsOk(cfg, m, rs[..|rs| - 1]) && PollOk(cfg, AfterRuns(cfg, m, rs[..|rs| - 1]).state, rs[|rs| - 1])
  }

  ghost predicate AllCompleted(rs: seq<PollRun>) {
    forall i :: 0 <= i < |rs| ==> rs[i].Completed?
  }
}
