/**
 The session model: what the monitor stores about an agent session, what a source
 reports about it, and the lifecycle events.

 `Session` and `SourceUpdate` are generic in how the completion time and the list of
 subagents are held: as values in `SessionState` and `Update`, through a heap cell and an
 array in the monitor's store.
 */
module Session {
  import opened Wrappers

  // Nanoseconds since the zero time, which is 0.
  type Time = int

  const ZERO_TIME: Time := 0

  type Duration = int

  type Cursor = string

  // An activity is an open set of strings; "" in an update means "not provided".
  type Activity = string

  const ACTIVITY_IDLE: Activity := "idle"
  const ACTIVITY_WORKING: Activity := "working"
  const ACTIVITY_WAITING: Activity := "waiting"
  const ACTIVITY_TERMINAL: Activity := "terminal"

  datatype LifecycleState = Active | Terminal

  datatype LifecycleEventType =
    EventDiscovered | EventUpdated | EventResumed | EventTerminal | EventStale | EventRemoved

  datatype LifecycleEvent = LifecycleEvent(
    kind: LifecycleEventType, sessionID: string, source: string,
    from: Option<LifecycleState>, to: Option<LifecycleState>, at: Time, reason: string)

  datatype SubagentState = SubagentState(
    id: string, parentID: string, slug: string, activity: Activity, currentTool: string,
    startedAt: Time, lastActivityAt: Time, model: string, contextTokens: int, outputTokens: int,
    messageCount: int, toolCallCount: int, completedAt: Time)

  // The fields of a session that are plain values.
  datatype SessionInfo = SessionInfo(
    id: string, source: string, slug: string, activity: Activity, lifecycle: LifecycleState,
    contextTokens: int, outputTokens: int, tokenEstimated: bool, maxContextTokens: int,
    model: string, workingDir: string, branch: string, currentTool: string,
    messageCount: int, toolCallCount: int, compactionCount: int,
    startedAt: Time, lastActivityAt: Time, lastDataReceivedAt: Time)

  datatype Session<C, A> = Session(info: SessionInfo, completedAt: C, subagents: A)

  type SessionState = Session<Option<Time>, seq<SubagentState>>

  datatype UpdateInfo = UpdateInfo(
    sessionID: string, slug: string, activity: Activity, model: string,
    contextTokens: int, outputTokens: int, maxContextTokens: int, tokenEstimated: bool,
    messageCountDelta: int, toolCallCountDelta: int, compactionCountDelta: int, currentTool: string,
    workingDir: string, branch: string, startedAt: Time, lastActivityAt: Time,
    terminal: bool, endReason: string, endedAt: Time)

  datatype SourceUpdate<A> = SourceUpdate(info: UpdateInfo, subagents: A)

  type Update = SourceUpdate<seq<SubagentState>>

  // The update of a source that has nothing new: no session ID and every field zero.
  const NO_UPDATE: Update :=
    SourceUpdate(
      UpdateInfo("", "", "", "", 0, 0, 0, false, 0, 0, 0, "", "", "", ZERO_TIME, ZERO_TIME, false, "", ZERO_TIME), [])

  datatype SessionHandle = SessionHandle(id: string, path: string, workingDir: string, startedAt: Time, source: string)

  datatype ParseOutcome<A> = ParseFailed | Parsed(update: SourceUpdate<A>, cursor: Cursor)

  // One call of a source's Parse: the answer to whatever cursor the monitor holds.
  type Parse = Cursor -> ParseOutcome<seq<SubagentState>>

  // A name given later replaces the one held.
  function Latest(held: string, given: string): string {
    if given != "" then given else held
  }
}
