/**
 What an update of the Pi source says, told by the entries of the lines it reads.
 */
module PiReports {
  import opened Wrappers
  import opened Session
  import opened Logs
  import opened Reader
  import Decimal
  import opened Pi

  /******* What an entry gives *******/

  function MessageIn(e: PiEntry): Option<Message> {
    if e.Entry? && e.kind == "message" && e.message.Message? then Some(e.message) else None
  }

  function SessionIDIn(e: PiEntry): Option<string> {
    if e.Entry? && e.kind == "session" then NotEmpty(e.id) else None
  }

  function WorkingDirIn(e: PiEntry): Option<string> {
    if e.Entry? && e.kind == "session" then NotEmpty(e.workingDir) else None
  }

  // A model is given by a change of it, and by a message of the assistant.
  function ModelIn(e: PiEntry): Option<string> {
    if e.Entry? && e.kind == "model_change" then NotEmpty(e.modelID)
    else match MessageIn(e)
         case None => None
         case Some(msg) => if msg.role == "assistant" then NotEmpty(msg.model) else None
  }

  function UsageIn(e: PiEntry): Option<TokenUsage> {
    match MessageIn(e)
    case None => None
    case Some(msg) => if msg.role == "assistant" then msg.usage else None
  }

  // After the user has spoken the session waits; everything else is work.
  function ActivityIn(e: PiEntry): Option<Activity> {
    match MessageIn(e)
    case None => None
    case Some(msg) =>
      if msg.role == "user" then Some("waiting")
      else if msg.role in {"assistant", "toolResult", "bashExecution"} then Some("working")
      else None
  }

  function ToolIn(e: PiEntry): Option<string> {
    match MessageIn(e)
    case None => None
    case Some(msg) =>
      if msg.role == "toolResult" then NotEmpty(msg.toolName)
      else if msg.role == "bashExecution" then Some("Bash")
      else None
  }

  function StartIn(e: PiEntry): Option<Time> {
    if e.Entry? && e.timestamp != Some(0) then e.timestamp else None
  }

  function TimeIn(e: PiEntry): Option<Time> {
    if e.Entry? then e.timestamp else None
  }

  datatype Given = Given(
    sessionID: Option<string>, workingDir: Option<string>, model: Option<string>, usage: Option<TokenUsage>,
    activity: Option<Activity>, tool: Option<string>, startedAt: Option<Time>, lastActivityAt: Option<Time>)

  function GivenBy(es: seq<PiEntry>): Given {
    Given(LastOf(es, SessionIDIn), LastOf(es, WorkingDirIn), LastOf(es, ModelIn), LastOf(es, UsageIn),
          LastOf(es, ActivityIn), LastOf(es, ToolIn), FirstOf(es, StartIn), LastOf(es, TimeIn))
  }

  // Context is everything read or written to the cache, by the last message of the assistant that says.
  ghost predicate TotalsTold(a: Totals, g: Given) {
    && a.sessionID == Or(g.sessionID, "") && a.workingDir == Or(g.workingDir, "") && a.model == Or(g.model, "")
    && a.activity == Or(g.activity, "") && a.currentTool == Or(g.tool, "")
    && a.startedAt == Or(g.startedAt, 0) && a.lastActivityAt == Or(g.lastActivityAt, 0)
    && (match g.usage
        case None => a.contextTokens == 0 && a.outputTokens == 0
        case Some(u) => a.contextTokens == u.input + u.cacheRead + u.cacheWrite && a.outputTokens == u.output)
    && g.startedAt != Some(0)
  }

  function GivenNext(g: Given, e: PiEntry): Given {
    Given(Later(g.sessionID, SessionIDIn(e)), Later(g.workingDir, WorkingDirIn(e)), Later(g.model, ModelIn(e)),
          Later(g.usage, UsageIn(e)), Later(g.activity, ActivityIn(e)), Later(g.tool, ToolIn(e)),
          Later(StartIn(e), g.startedAt), Later(g.lastActivityAt, TimeIn(e)))
  }

  lemma GivenIs(es: seq<PiEntry>)
    requires es != []
    ensures GivenBy(es) == GivenNext(GivenBy(es[..|es| - 1]), es[|es| - 1])
  {
    LastOfNext(es, SessionIDIn);
    LastOfNext(es, WorkingDirIn);
    LastOfNext(es, ModelIn);
    LastOfNext(es, UsageIn);
    LastOfNext(es, ActivityIn);
    LastOfNext(es, ToolIn);
    LastOfNext(es, StartIn);
    LastOfNext(es, TimeIn);
  }

  lemma StampTold(a: Totals, g: Given, e: PiEntry)
    requires e.Entry? && TotalsTold(a, g)
    ensures TotalsTold(Stamp(a, e.timestamp), g.(startedAt := Later(StartIn(e), g.startedAt),
                                                 lastActivityAt := Later(g.lastActivityAt, TimeIn(e))))
  {
  }

  lemma AssistantTold(a: Totals, g: Given, msg: Message)
    requires msg.Message? && TotalsTold(a, g)
    ensures TotalsTold(AfterAssistant(a, msg), g.(model := Later(g.model, NotEmpty(msg.model)),
                                                  usage := Later(g.usage, msg.usage), activity := Some("working")))
  {
  }

  lemma MessageTold(a: Totals, g: Given, e: PiEntry)
    requires MessageIn(e).Some? && TotalsTold(a, g)
    ensures TotalsTold(AfterMessage(a, e.message),
                       g.(model := Later(g.model, ModelIn(e)), usage := Later(g.usage, UsageIn(e)),
                          activity := Later(g.activity, ActivityIn(e)), tool := Later(g.tool, ToolIn(e))))
  {
    if e.message.role == "assistant" {
      AssistantTold(a, g, e.message);
    }
  }

  lemma EntryTold(a: Totals, g: Given, e: PiEntry)
    requires TotalsTold(a, g)
    ensures TotalsTold(AfterEntry(a, e), GivenNext(g, e))
  {
    if e.Entry? {
      StampTold(a, g, e);
      var g' := g.(startedAt := Later(StartIn(e), g.startedAt), lastActivityAt := Later(g.lastActivityAt, TimeIn(e)));
      if MessageIn(e).Some? {
        MessageTold(Stamp(a, e.timestamp), g', e);
      }
    }
  }

  function EntriesOf(decode: Decode, lines: seq<Bytes>): (es: seq<PiEntry>)
    ensures |es| == |lines|
  {
    seq(|lines|, i requires 0 <= i < |lines| => decode(lines[i]))
  }

  lemma AfterLinesPush(decode: Decode, a: Totals, lines: seq<Bytes>)
    requires lines != []
    ensures AfterLines(decode, a, lines)
         == AfterEntry(AfterLines(decode, a, lines[..|lines| - 1]), decode(lines[|lines| - 1]))
  {
    var n := |lines| - 1;
    LinesConcat(decode, a, lines[..n], [lines[n]]);
    assert lines[..n] + [lines[n]] == lines;
  }

  lemma {:induction false} LinesTold(decode: Decode, lines: seq<Bytes>)
    ensures TotalsTold(AfterLines(decode, NOTHING, lines), GivenBy(EntriesOf(decode, lines)))
    decreases |lines|
  {
    var es := EntriesOf(decode, lines);
    if lines == [] {
      assert es == [];
    } else {
      var n := |lines| - 1;
      LinesTold(decode, lines[..n]);
      assert es[..n] == EntriesOf(decode, lines[..n]);
      AfterLinesPush(decode, NOTHING, lines);
      EntryTold(AfterLines(decode, NOTHING, lines[..n]), GivenBy(es[..n]), es[n]);
      GivenIs(es);
    }
  }

  // The entries of the lines a call reads.
  function NewEntries(decode: Decode, file: Bytes, c: Cursor): seq<PiEntry> {
    match OffsetOf(c)
    case None => []
    case Some(offset) =>
      match ReadSpec(file, offset, DEFAULT_OPTIONS)
      case Read(lines, _) => EntriesOf(decode, lines)
      case _ => []
  }

  // A call fails exactly when its cursor is not an integer or the file cannot be read from there; the next cursor is
  // the printed offset behind the lines read.
  lemma ParsesIff(decode: Decode, file: Bytes, h: SessionHandle, c: Cursor)
    ensures var r := ParseSpec(decode, file, h, c);
            if c != "" && Decimal.ParseInt(c).None? then r.ParseFailed?
            else
              var read := ReadSpec(file, if c == "" then 0 else Decimal.ParseInt(c).value, DEFAULT_OPTIONS);
              if read.Read? then r.Parsed? && r.cursor == Decimal.FormatInt(read.nextOffset) else r.ParseFailed?
  {
  }

  // A call that succeeds reports what its entries give, on the session of the handle if there are lines, and never an
  // end, a slug, a branch, a token limit or a compaction.
  lemma UpdateTells(decode: Decode, file: Bytes, h: SessionHandle, c: Cursor)
    requires ParseSpec(decode, file, h, c).Parsed?
    ensures var u, es := ParseSpec(decode, file, h, c).update, NewEntries(decode, file, c);
            var g := GivenBy(es);
            && u.info.sessionID == (if es != [] then h.id else "")
            && u.info.workingDir == Or(g.workingDir, "") && u.info.model == Or(g.model, "")
            && u.info.activity == Or(g.activity, "") && u.info.currentTool == Or(g.tool, "")
            && u.info.startedAt == Or(g.startedAt, 0) && u.info.lastActivityAt == Or(g.lastActivityAt, 0)
            && (match g.usage
                case None => u.info.contextTokens == 0 && u.info.outputTokens == 0
                case Some(t) =>
                  u.info.contextTokens == t.input + t.cacheRead + t.cacheWrite && u.info.outputTokens == t.output)
            && !u.info.terminal && u.info.slug == "" && u.info.branch == "" && u.info.maxContextTokens == 0
            && u.info.compactionCountDelta == 0 && !u.info.tokenEstimated && u.subagents == []
  {
    var read := ReadSpec(file, OffsetOf(c).value, DEFAULT_OPTIONS);
    LinesTold(decode, read.lines);
  }
}
