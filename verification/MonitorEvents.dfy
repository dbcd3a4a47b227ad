/**
 What the events of a step and of a poll say.
 */
module MonitorEvents {
  import opened Wrappers
  import opened Session
  import opened MonitorSpec
  import opened MonitorInvariants
  import opened MonitorReports

  // Which event an update causes depends on where the session is.
  function KindAfter(p: Phase, terminal: bool): LifecycleEventType {
    match p
    case Untracked => EventDiscovered
    case Live => if terminal then EventTerminal else EventUpdated
    case Ended => EventResumed
    case Gone => EventResumed
  }

  // A committed update causes one event, which says what the update did and when, and one entry of the delta, which is
  // the session as it is stored from then on.
  lemma UpdateEvent(cfg: Config, w: World, op: Op, id: string)
    requires Inv(w.state) && Updates(w, op, id)
    ensures var w', u := Step(cfg, w, op), op.parse(CursorAt(w.state, CursorKey(op.source, id))).update.info;
            var kind := KindAfter(PhaseOf(w.state, id), u.terminal);
            && |w'.out.lifecycles| == |w.out.lifecycles| + 1 && w.out.lifecycles <= w'.out.lifecycles
            && id in w'.state.store && w'.out.updates == w.out.updates + [w'.state.store[id]]
            && w'.out.removed == w.out.removed && w'.out.health == w.out.health
            && var e := w'.out.lifecycles[|w.out.lifecycles|];
               && e.kind == kind && e.sessionID == id && e.source == op.handle.source && e.at == op.now
               && e.reason == (if kind == EventTerminal then u.endReason else "")
               && e.from == (if kind == EventDiscovered then None else if kind == EventResumed then Some(Terminal)
                             else Some(Active))
               && e.to == Some(if kind == EventTerminal then Terminal else Active)
  {
    var r := op.parse(CursorAt(w.state, CursorKey(op.source, id)));
    assert Step(cfg, w, op) == Commit(w, op.source, op.handle, r.update, r.cursor, op.now);
  }

  // An active session that is reported as over is terminal from then on, completed when the report says or, if it does
  // not say, now.  Any other update leaves the session active and not completed.
  lemma UpdateEnds(cfg: Config, w: World, op: Op, id: string)
    requires Inv(w.state) && Updates(w, op, id)
    ensures var w', u := Step(cfg, w, op), op.parse(CursorAt(w.state, CursorKey(op.source, id))).update.info;
            && id in w'.state.store
            && var s := w'.state.store[id];
               if u.terminal && PhaseOf(w.state, id) == Live then
                 s.info.lifecycle == Terminal && s.completedAt == Some(if u.endedAt != 0 then u.endedAt else op.now)
               else s.info.lifecycle == Active && s.completedAt == None
  {
    var r := op.parse(CursorAt(w.state, CursorKey(op.source, id)));
    assert Step(cfg, w, op) == Commit(w, op.source, op.handle, r.update, r.cursor, op.now);
    PhaseAfterUpdate(w.state, op.source, op.handle, r.update, r.cursor, op.now);
    StepKeepsInv(cfg, w, op);
  }

  function HealthNow(name: string, sh: SourceHealth): Health {
    Health(name, sh.status, sh.discoverFailures, sh.parseFailures, sh.lastError, sh.updatedAt)
  }

  // The health of a source is looked at when its discovery fails and when all its handles are parsed: an event says
  // what is recorded then, if and only if the status changed.
  lemma HealthEvent(cfg: Config, w: World, op: Op)
    ensures var w' := Step(cfg, w, op);
            if op.DiscoverFailed? || op.EndSource? then
              var before, after := HealthOf(w.state, op.source), HealthOf(w'.state, op.source);
              && after.updatedAt == op.now
              && w'.out.health == w.out.health
                 + (if after.status != before.status then [HealthNow(op.source, after)] else [])
            else w'.state.health == w.state.health && w'.out.health == w.out.health
  {
    match op
    case DiscoverFailed(name, error, now) =>
    case EndSource(name, now) =>
    case _ =>
  }

  // What is sent after a poll: the lifecycle events, then one delta if a session was updated or removed, then the
  // health events, each with its own time.
  lemma EmittedInOrder(seqNo: nat, out: Outbox, now: Time)
    ensures var evs, n := Emitted(seqNo, out, now), |out.lifecycles|;
            var k := if out.updates != [] || out.removed != [] then 1 else 0;
            && |evs| == n + k + |out.health|
            && (forall i :: 0 <= i < n ==>
                  evs[i].payload == LifecyclePayload(out.lifecycles[i]) && evs[i].at == out.lifecycles[i].at)
            && (k == 1 ==> evs[n].payload == DeltaPayload(out.updates, out.removed) && evs[n].at == now)
            && (forall i :: 0 <= i < |out.health| ==>
                  && evs[n + k + i].payload == HealthPayload(out.health[i])
                  && evs[n + k + i].at == out.health[i].updatedAt)
  {
  }
}
