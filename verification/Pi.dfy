/**
 The Pi source: one pass over the lines a read returns, an accumulator, and the update made of it.

 A line decodes to a `PiEntry`; JSON decoding and time parsing are the parameter `decode`.
 */
module Pi {
  import opened Wrappers
  import opened Session
  import opened MonitorSpec
  import opened Reader
  import opened Decimal

  /******* Records *******/

  datatype TokenUsage = TokenUsage(input: int, output: int, cacheRead: int, cacheWrite: int)

  // The message field: absent, not decodable, or decoded.
  datatype Message =
    | NoMessage
    | BadMessage
    | Message(role: string, model: string, usage: Option<TokenUsage>, toolName: string)

  // `timestamp` is None when it is absent or does not parse.
  datatype PiEntry =
    | Malformed
    | Entry(kind: string, id: string, timestamp: Option<Time>, workingDir: string, message: Message, modelID: string)

  type Decode = Bytes -> PiEntry

  predicate IsMessage(e: PiEntry) {
    e.Entry? && e.kind == "message" && e.message.Message? && e.message.role in {"user", "assistant"}
  }

  predicate IsToolCall(e: PiEntry) {
    e.Entry? && e.kind == "message" && e.message.Message? && e.message.role in {"toolResult", "bashExecution"}
  }

  /******* The accumulator *******/

  datatype Totals = Totals(
    sessionID: string, model: string, workingDir: string, activity: Activity, currentTool: string,
    contextTokens: int, outputTokens: int, messageDelta: int, toolCallDelta: int,
    startedAt: Time, lastActivityAt: Time)

  const NOTHING: Totals := Totals("", "", "", "", "", 0, 0, 0, 0, ZERO_TIME, ZERO_TIME)

  function Stamp(a: Totals, t: Option<Time>): Totals {
    match t
    case None => a
    case Some(t) => a.(startedAt := if a.startedAt == ZERO_TIME then t else a.startedAt, lastActivityAt := t)
  }

  function AfterAssistant(a: Totals, m: Message): Totals
    requires m.Message?
  {
    var a := a.(messageDelta := a.messageDelta + 1, activity := ACTIVITY_WORKING, model := Latest(a.model, m.model));
    match m.usage
    case None => a
    case Some(u) => a.(contextTokens := u.input + u.cacheRead + u.cacheWrite, outputTokens := u.output)
  }

  function AfterMessage(a: Totals, m: Message): Totals {
    match m
    case NoMessage => a
    case BadMessage => a
    case Message(role, _, _, toolName) =>
      if role == "user" then a.(messageDelta := a.messageDelta + 1, activity := ACTIVITY_WAITING)
      else if role == "assistant" then AfterAssistant(a, m)
      else if role == "toolResult" then
        a.(toolCallDelta := a.toolCallDelta + 1, activity := ACTIVITY_WORKING,
           currentTool := Latest(a.currentTool, toolName))
      else if role == "bashExecution" then
        a.(toolCallDelta := a.toolCallDelta + 1, activity := ACTIVITY_WORKING, currentTool := "Bash")
      else a
  }

  function AfterEntry(a: Totals, e: PiEntry): Totals {
    match e
    case Malformed => a
    case Entry(kind, id, timestamp, workingDir, message, modelID) =>
      var a := Stamp(a, timestamp);
      if kind == "session" then
        a.(sessionID := Latest(a.sessionID, id), workingDir := Latest(a.workingDir, workingDir))
      else if kind == "message" then AfterMessage(a, message)
      else if kind == "model_change" then a.(model := Latest(a.model, modelID))
      else a
  }

  function AfterLines(decode: Decode, a: Totals, lines: seq<Bytes>): Totals
    decreases lines
  {
    if lines == [] then a else AfterLines(decode, AfterEntry(a, decode(lines[0])), lines[1..])
  }

  class Accumulator {
    var sessionID: string
    var model: string
    var workingDir: string
    var activity: Activity
    var currentTool: string
    var contextTokens: int
    var outputTokens: int
    var messageDelta: int
    var toolCallDelta: int
    var startedAt: Time
    var lastActivityAt: Time

    constructor ()
      ensures Value() == NOTHING
    {
      sessionID, model, workingDir, activity, currentTool := "", "", "", "", "";
      contextTokens, outputTokens, messageDelta, toolCallDelta := 0, 0, 0, 0;
      startedAt, lastActivityAt := ZERO_TIME, ZERO_TIME;
    }

    function Value(): Totals
      reads this
    {
      Totals(sessionID, model, workingDir, activity, currentTool,
             contextTokens, outputTokens, messageDelta, toolCallDelta, startedAt, lastActivityAt)
    }

    method ParseLine(e: PiEntry)
      modifies this
      ensures Value() == AfterEntry(old(Value()), e)
    {
      if e.Malformed? {
        return;
      }
      if e.timestamp.Some? {
        if startedAt == ZERO_TIME {
          startedAt := e.timestamp.value;
        }
        lastActivityAt := e.timestamp.value;
      }
      if e.kind == "session" {
        if e.id != "" {
          sessionID := e.id;
        }
        if e.workingDir != "" {
          workingDir := e.workingDir;
        }
      } else if e.kind == "message" {
        if e.message.NoMessage? {
          return;
        }
        ParseMessage(e.message);
      } else if e.kind == "model_change" {
        if e.modelID != "" {
          model := e.modelID;
        }
      }
    }

    method ParseMessage(m: Message)
      modifies this
      ensures Value() == AfterMessage(old(Value()), m)
    {
      if !m.Message? {
        return;
      }
      if m.role == "user" {
        messageDelta := messageDelta + 1;
        activity := ACTIVITY_WAITING;
      } else if m.role == "assistant" {
        messageDelta := messageDelta + 1;
        activity := ACTIVITY_WORKING;
        if m.model != "" {
          model := m.model;
        }
        if m.usage.Some? {
          contextTokens := m.usage.value.input + m.usage.value.cacheRead + m.usage.value.cacheWrite;
          outputTokens := m.usage.value.output;
        }
      } else if m.role == "toolResult" {
        toolCallDelta := toolCallDelta + 1;
        activity := ACTIVITY_WORKING;
        if m.toolName != "" {
          currentTool := m.toolName;
        }
      } else if m.role == "bashExecution" {
        toolCallDelta := toolCallDelta + 1;
        activity := ACTIVITY_WORKING;
        currentTool := "Bash";
      }
    }
  }

  /******* Parse *******/

  function UpdateOf(a: Totals, id: string): Update {
    SourceUpdate(
      UpdateInfo(id, "", a.activity, a.model, a.contextTokens, a.outputTokens, 0, false,
                 a.messageDelta, a.toolCallDelta, 0, a.currentTool, a.workingDir, "",
                 a.startedAt, a.lastActivityAt, false, "", ZERO_TIME),
      [])
  }

  // The offset in a cursor, if it holds one.
  function OffsetOf(c: Cursor): Option<int> {
    if c == "" then Some(0) else ParseInt(c)
  }

  // The update names the session exactly when there was a complete line.
  function ParseSpec(decode: Decode, file: Bytes, h: SessionHandle, c: Cursor): ParseOutcome<seq<SubagentState>> {
    match OffsetOf(c)
    case None => ParseFailed
    case Some(offset) =>
      match ReadSpec(file, offset, DEFAULT_OPTIONS)
      case Read(lines, next) =>
        var a := AfterLines(decode, NOTHING, lines);
        Parsed(UpdateOf(a, if |lines| > 0 then h.id else a.sessionID), FormatInt(next))
      case _ => ParseFailed
  }

  method Parse(decode: Decode, file: Bytes, h: SessionHandle, c: Cursor) returns (r: ParseOutcome<seq<SubagentState>>)
    ensures r == ParseSpec(decode, file, h, c)
  {
    var offset := 0;
    if c != "" {
      var parsed := ParseInt(c);
      if parsed.None? {
        return ParseFailed;
      }
      offset := parsed.value;
    }
    var read := ReadLines(file, offset, DEFAULT_OPTIONS);
    if !read.Read? {
      return ParseFailed;
    }
    var lines := read.lines;
    var acc := new Accumulator();
    var i := 0;
    while i < |lines|
      invariant 0 <= i <= |lines|
      invariant AfterLines(decode, acc.Value(), lines[i..]) == AfterLines(decode, NOTHING, lines)
      modifies acc
    {
      var e := decode(lines[i]);
      assert lines[i..][1..] == lines[i + 1..];
      acc.ParseLine(e);
      i := i + 1;
    }
    var update := UpdateOf(acc.Value(), if |lines| > 0 then h.id else acc.sessionID);
    return Parsed(update, FormatInt(read.nextOffset));
  }

  /******* Batches *******/

  function MessageWeight(decode: Decode): Bytes -> int {
    line => if IsMessage(decode(line)) then 1 else 0
  }

  function ToolWeight(decode: Decode): Bytes -> int {
    line => if IsToolCall(decode(line)) then 1 else 0
  }

  // `whole` is `before` with the non-empty names of `after` on top and its counts added.
  ghost predicate Overlays(before: Totals, after: Totals, whole: Totals) {
    && whole.sessionID == Latest(before.sessionID, after.sessionID)
    && whole.model == Latest(before.model, after.model)
    && whole.workingDir == Latest(before.workingDir, after.workingDir)
    && whole.activity == Latest(before.activity, after.activity)
    && whole.currentTool == Latest(before.currentTool, after.currentTool)
    && whole.messageDelta == before.messageDelta + after.messageDelta
    && whole.toolCallDelta == before.toolCallDelta + after.toolCallDelta
  }

  lemma AssistantOverlays(a: Totals, t: Option<Time>, m: Message)
    requires m.Message?
    ensures Overlays(a, AfterAssistant(Stamp(NOTHING, t), m), AfterAssistant(Stamp(a, t), m))
  {
  }

  lemma MessageOverlays(a: Totals, t: Option<Time>, m: Message)
    ensures Overlays(a, AfterMessage(Stamp(NOTHING, t), m), AfterMessage(Stamp(a, t), m))
  {
    if m.Message? && m.role == "assistant" {
      AssistantOverlays(a, t, m);
    }
  }

  lemma EntryOverlays(a: Totals, e: PiEntry)
    ensures Overlays(a, AfterEntry(NOTHING, e), AfterEntry(a, e))
  {
    if e.Entry? && e.kind == "message" {
      MessageOverlays(a, e.timestamp, e.message);
    }
  }

  lemma {:induction false} LinesOverlay(decode: Decode, a: Totals, lines: seq<Bytes>)
    ensures Overlays(a, AfterLines(decode, NOTHING, lines), AfterLines(decode, a, lines))
    decreases lines
  {
    if lines != [] {
      var e := decode(lines[0]);
      EntryOverlays(a, e);
      LinesOverlay(decode, AfterEntry(a, e), lines[1..]);
      LinesOverlay(decode, AfterEntry(NOTHING, e), lines[1..]);
    }
  }

  lemma {:induction false} LinesConcat(decode: Decode, a: Totals, x: seq<Bytes>, y: seq<Bytes>)
    ensures AfterLines(decode, a, x + y) == AfterLines(decode, AfterLines(decode, a, x), y)
    decreases x
  {
    if x == [] {
      assert x + y == y;
    } else {
      assert (x + y)[1..] == x[1..] + y;
      LinesConcat(decode, AfterEntry(a, decode(x[0])), x[1..], y);
    }
  }

  // One read of a session and when its update is merged.
  datatype Batch = Batch(lines: seq<Bytes>, at: Time)

  function UpdateFrom(decode: Decode, lines: seq<Bytes>, id: string): UpdateInfo {
    UpdateOf(AfterLines(decode, NOTHING, lines), id).info
  }

  // The updates of the reads, merged one after the other.
  function MergeBatches(decode: Decode, s: SessionInfo, id: string, batches: seq<Batch>): SessionInfo {
    if batches == [] then s else
      var n := |batches| - 1;
      MergeInfo(MergeBatches(decode, s, id, batches[..n]), UpdateFrom(decode, batches[n].lines, id), batches[n].at)
  }

  function AllLines(batches: seq<Batch>): seq<Bytes> {
    if batches == [] then [] else AllLines(batches[..|batches| - 1]) + batches[|batches| - 1].lines
  }

  // The names and counts a Pi session gets.
  ghost predicate SameNamesAndCounts(a: SessionInfo, b: SessionInfo) {
    && a.model == b.model && a.workingDir == b.workingDir && a.activity == b.activity && a.currentTool == b.currentTool
    && a.messageCount == b.messageCount && a.toolCallCount == b.toolCallCount
  }

  // The update of the lines of two reads provides what the updates of the two provide as one.
  lemma BatchesCombine(decode: Decode, s: SessionInfo, id: string, x: seq<Bytes>, y: seq<Bytes>, t: Time, now: Time)
    ensures SameNamesAndCounts(MergeInfo(s, Combined(UpdateFrom(decode, x, id), UpdateFrom(decode, y, id)), t),
                               MergeInfo(s, UpdateFrom(decode, x + y, id), now))
  {
    LinesConcat(decode, NOTHING, x, y);
    LinesOverlay(decode, AfterLines(decode, NOTHING, x), y);
  }

  lemma MergeKeepsSame(a: SessionInfo, b: SessionInfo, u: UpdateInfo, t: Time)
    requires SameNamesAndCounts(a, b)
    ensures SameNamesAndCounts(MergeInfo(a, u, t), MergeInfo(b, u, t))
  {
  }

  // Names and counts of a session do not depend on how its lines fall into reads: merging the updates of any number
  // of reads gives what merging the update of one read of all their lines gives.
  lemma {:induction false} MergeIgnoresBatching(decode: Decode, s: SessionInfo, id: string,
                                             batches: seq<Batch>, now: Time)
    ensures SameNamesAndCounts(MergeBatches(decode, s, id, batches),
                               MergeInfo(s, UpdateFrom(decode, AllLines(batches), id), now))
  {
    if batches == [] {
      assert UpdateFrom(decode, AllLines(batches), id) == UpdateOf(NOTHING, id).info;
    } else {
      var n := |batches| - 1;
      var x, y, t := AllLines(batches[..n]), batches[n].lines, batches[n].at;
      MergeIgnoresBatching(decode, s, id, batches[..n], now);
      MergeKeepsSame(MergeBatches(decode, s, id, batches[..n]), MergeInfo(s, UpdateFrom(decode, x, id), now),
                     UpdateFrom(decode, y, id), t);
      MergeComposes(s, UpdateFrom(decode, x, id), UpdateFrom(decode, y, id), now, t);
      BatchesCombine(decode, s, id, x, y, t, now);
    }
  }

  lemma EntryCounts(decode: Decode, line: Bytes, a: Totals)
    ensures var b := AfterEntry(a, decode(line));
            && b.messageDelta == a.messageDelta + MessageWeight(decode)(line)
            && b.toolCallDelta == a.toolCallDelta + ToolWeight(decode)(line)
  {
  }

  // The deltas count the message lines and the tool lines.
  lemma {:induction false} DeltasCount(decode: Decode, a: Totals, lines: seq<Bytes>)
    ensures var b := AfterLines(decode, a, lines);
            && b.messageDelta == a.messageDelta + Sum(MessageWeight(decode), lines)
            && b.toolCallDelta == a.toolCallDelta + Sum(ToolWeight(decode), lines)
    decreases lines
  {
    if lines != [] {
      EntryCounts(decode, lines[0], a);
      DeltasCount(decode, AfterEntry(a, decode(lines[0])), lines[1..]);
    }
  }
}
