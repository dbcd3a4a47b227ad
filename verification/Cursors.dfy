/**
 The cursors of the sources that count: Antigravity ("mtime,messages,tools"), OpenCode
 ("messages,tools") and Claude (a byte offset, with the parent map in JSON when there is one);
 and the clamped deltas the first two compute from them.
 */
module Cursors {
  import opened Wrappers
  import opened Session
  import opened Decimal

  /******* Antigravity *******/

  datatype AntigravityCursor = AntigravityCursor(mtime: Int64, msgs: Int64, tools: Int64)

  function EncodeAntigravity(c: AntigravityCursor): Cursor {
    FormatInt(c.mtime) + "," + FormatInt(c.msgs) + "," + FormatInt(c.tools)
  }

  // An empty or malformed cursor reads as zeros.
  function DecodeAntigravity(c: Cursor): AntigravityCursor {
    var zero := AntigravityCursor(0, 0, 0);
    if c == "" then zero else
      var parts := SplitN(c, ',', 3);
      if |parts| != 3 then zero else
        match (ParseInt(parts[0]), ParseInt(parts[1]), ParseInt(parts[2]))
        case (Some(m), Some(a), Some(b)) =>
          if InRange(m) && InRange(a) && InRange(b) then AntigravityCursor(m, a, b) else zero
        case _ => zero
  }

  lemma AntigravityRoundTrip(c: AntigravityCursor)
    ensures DecodeAntigravity(EncodeAntigravity(c)) == c
  {
    var m, a, b := FormatInt(c.mtime), FormatInt(c.msgs), FormatInt(c.tools);
    NoCommaInInt(c.mtime);
    NoCommaInInt(c.msgs);
    assert EncodeAntigravity(c) == m + [','] + (a + [','] + b);
    SplitThree(m, a, b);
    ParseOfFormat(c.mtime);
    ParseOfFormat(c.msgs);
    ParseOfFormat(c.tools);
  }

  lemma SplitThree(m: string, a: string, b: string)
    requires ',' !in m && ',' !in a
    ensures SplitN(m + [','] + (a + [','] + b), ',', 3) == [m, a, b]
  {
    SplitFirst(m, ',', a + [','] + b, 3);
    SplitFirst(a, ',', b, 2);
    assert SplitN(b, ',', 1) == [b];
  }

  lemma AntigravityInjective(c: AntigravityCursor, d: AntigravityCursor)
    requires EncodeAntigravity(c) == EncodeAntigravity(d)
    ensures c == d
  {
    AntigravityRoundTrip(c);
    AntigravityRoundTrip(d);
  }

  /******* OpenCode *******/

  datatype OpenCodeCursor = OpenCodeCursor(msgCount: Int64, toolCount: Int64)

  function EncodeOpenCode(c: OpenCodeCursor): Cursor {
    FormatInt(c.msgCount) + "," + FormatInt(c.toolCount)
  }

  // A malformed cursor is an error here.
  function DecodeOpenCode(s: Cursor): Result<OpenCodeCursor> {
    if s == "" then Success(OpenCodeCursor(0, 0)) else
      var parts := SplitN(s, ',', 2);
      if |parts| != 2 then Failure("invalid cursor") else
        match (ParseInt(parts[0]), ParseInt(parts[1]))
        case (Some(m), Some(t)) =>
          if InRange(m) && InRange(t) then Success(OpenCodeCursor(m, t)) else Failure("invalid cursor")
        case _ => Failure("invalid cursor")
  }

  lemma OpenCodeRoundTrip(c: OpenCodeCursor)
    ensures DecodeOpenCode(EncodeOpenCode(c)) == Success(c)
  {
    var m, t := FormatInt(c.msgCount), FormatInt(c.toolCount);
    NoCommaInInt(c.msgCount);
    assert EncodeOpenCode(c) == m + [','] + t;
    SplitFirst(m, ',', t, 2);
    assert SplitN(t, ',', 1) == [t];
    ParseOfFormat(c.msgCount);
    ParseOfFormat(c.toolCount);
  }

  lemma OpenCodeInjective(c: OpenCodeCursor, d: OpenCodeCursor)
    requires EncodeOpenCode(c) == EncodeOpenCode(d)
    ensures c == d
  {
    OpenCodeRoundTrip(c);
    OpenCodeRoundTrip(d);
  }

  /******* Claude *******/

  datatype ClaudeCursor = ClaudeCursor(offset: Int64, parents: map<string, string>)

  // The JSON library for cursor records.
  datatype Json = Json(marshal: ClaudeCursor -> string, unmarshal: string -> Option<ClaudeCursor>)

  // It prints an object and reads its own output back.
  ghost predicate Lawful(json: Json) {
    forall c :: json.marshal(c) != "" && json.marshal(c)[0] == '{' && json.unmarshal(json.marshal(c)) == Some(c)
  }

  function EncodeClaude(json: Json, c: ClaudeCursor): Cursor {
    if c.parents == map[] then FormatInt(c.offset) else json.marshal(c)
  }

  // A plain offset is tried first; what is neither an offset nor a record is an error.
  function DecodeClaude(json: Json, s: Cursor): Option<ClaudeCursor> {
    if s == "" then Some(ClaudeCursor(0, map[])) else
      match ParseInt(s)
      case Some(n) => if InRange(n) then Some(ClaudeCursor(n, map[])) else None
      case None => json.unmarshal(s)
  }

  lemma ClaudeRoundTrip(json: Json, c: ClaudeCursor)
    requires Lawful(json)
    ensures DecodeClaude(json, EncodeClaude(json, c)) == Some(c)
  {
    if c.parents == map[] {
      ParseOfFormat(c.offset);
    } else {
      ParseRejects(json.marshal(c));
    }
  }

  lemma ClaudeInjective(json: Json, c: ClaudeCursor, d: ClaudeCursor)
    requires Lawful(json) && EncodeClaude(json, c) == EncodeClaude(json, d)
    ensures c == d
  {
    ClaudeRoundTrip(json, c);
    ClaudeRoundTrip(json, d);
  }

  /******* Clamped deltas *******/

  function ClampedDelta(total: int, prev: int): nat {
    if total - prev < 0 then 0 else total - prev
  }

  // Deltas reported while the total goes through `totals`, starting from 0.
  function SumOfDeltas(totals: seq<int>): nat {
    if totals == [] then 0 else
      SumOfDeltas(totals[..|totals| - 1]) + ClampedDelta(totals[|totals| - 1], LastTotal(totals[..|totals| - 1]))
  }

  // Everything the total fell by on the way.
  function SumOfDrops(totals: seq<int>): nat {
    if totals == [] then 0 else
      SumOfDrops(totals[..|totals| - 1]) + ClampedDelta(LastTotal(totals[..|totals| - 1]), totals[|totals| - 1])
  }

  function LastTotal(totals: seq<int>): int {
    if totals == [] then 0 else totals[|totals| - 1]
  }

  ghost predicate NeverFalls(totals: seq<int>) {
    forall i :: 0 <= i < |totals| ==> LastTotal(totals[..i]) <= totals[i]
  }

  // The accumulated count is the last total plus everything the total ever fell by.
  lemma {:induction false} DeltasTelescope(totals: seq<int>)
    ensures SumOfDeltas(totals) == LastTotal(totals) + SumOfDrops(totals)
  {
    if totals != [] {
      DeltasTelescope(totals[..|totals| - 1]);
    }
  }

  lemma {:induction false} NoDropsIffNeverFalls(totals: seq<int>)
    ensures SumOfDrops(totals) == 0 <==> NeverFalls(totals)
  {
    if totals != [] {
      var n := |totals| - 1;
      NoDropsIffNeverFalls(totals[..n]);
      assert forall i :: 0 <= i < n ==> totals[..n][..i] == totals[..i];
      assert NeverFalls(totals) <==> NeverFalls(totals[..n]) && LastTotal(totals[..n]) <= totals[n];
    }
  }

  // So it equals the last total exactly when the total never fell.
  lemma CountIsExactIffNeverFalls(totals: seq<int>)
    ensures SumOfDeltas(totals) == LastTotal(totals) + SumOfDrops(totals)
    ensures SumOfDeltas(totals) == LastTotal(totals) <==> NeverFalls(totals)
  {
    DeltasTelescope(totals);
    NoDropsIffNeverFalls(totals);
  }

  /******* The two counting sources *******/

  // What there is to read: a file that does not parse, or the totals counted in it.
  datatype SessionFile = Unparseable(mtime: Int64) | Counted(mtime: Int64, msgs: Int64, tools: Int64)

  function CountUpdate(id: string, msgs: int, tools: int): Update {
    NO_UPDATE.(info := NO_UPDATE.info.(sessionID := id, messageCountDelta := msgs, toolCallCountDelta := tools))
  }

  // An unchanged file gives no update; a file that does not parse is an error.
  function ParseAntigravity(id: string, file: SessionFile, c: Cursor): ParseOutcome<seq<SubagentState>> {
    var prev := DecodeAntigravity(c);
    if prev.mtime == file.mtime then Parsed(NO_UPDATE, c)
    else if file.Unparseable? then ParseFailed
    else Parsed(CountUpdate(id, ClampedDelta(file.msgs, prev.msgs), ClampedDelta(file.tools, prev.tools)),
                EncodeAntigravity(AntigravityCursor(file.mtime, file.msgs, file.tools)))
  }

  // The rows of a session: none, or the totals counted in the database.
  function ParseOpenCode(id: string, rows: Option<(Int64, Int64)>, c: Cursor): ParseOutcome<seq<SubagentState>> {
    match DecodeOpenCode(c)
    case Failure(_) => ParseFailed
    case Success(prev) =>
      match rows
      case None => Parsed(CountUpdate(id, 0, 0), EncodeOpenCode(prev))
      case Some((msgs, tools)) =>
        Parsed(CountUpdate(id, ClampedDelta(msgs, prev.msgCount), ClampedDelta(tools, prev.toolCount)),
               EncodeOpenCode(OpenCodeCursor(msgs, tools)))
  }

  // A session as a monitor follows it: the stored cursor and the sums of the committed deltas.
  datatype Counts = Counts(cursor: Cursor, msgs: int, tools: int)

  // The monitor stores cursor and deltas of updates that name a session, and nothing else.
  function Take(k: Counts, r: ParseOutcome<seq<SubagentState>>): Counts {
    match r
    case ParseFailed => k
    case Parsed(u, c) =>
      if u.info.sessionID == "" then k
      else Counts(c, k.msgs + u.info.messageCountDelta, k.tools + u.info.toolCallCountDelta)
  }

  function FollowAntigravity(id: string, files: seq<SessionFile>): Counts {
    if files == [] then Counts("", 0, 0) else
      var k := FollowAntigravity(id, files[..|files| - 1]);
      Take(k, ParseAntigravity(id, files[|files| - 1], k.cursor))
  }

  function LastReading(readings: seq<AntigravityCursor>): AntigravityCursor {
    if readings == [] then AntigravityCursor(0, 0, 0) else readings[|readings| - 1]
  }

  // What was read: the parseable files with a modification time other than that of the one before.
  function Readings(files: seq<SessionFile>): seq<AntigravityCursor> {
    if files == [] then [] else
      var before := Readings(files[..|files| - 1]);
      match files[|files| - 1]
      case Unparseable(_) => before
      case Counted(mtime, msgs, tools) =>
        if mtime == LastReading(before).mtime then before else before + [AntigravityCursor(mtime, msgs, tools)]
  }

  function MsgTotals(rs: seq<AntigravityCursor>): seq<int> {
    seq(|rs|, i requires 0 <= i < |rs| => rs[i].msgs)
  }

  function ToolTotals(rs: seq<AntigravityCursor>): seq<int> {
    seq(|rs|, i requires 0 <= i < |rs| => rs[i].tools)
  }

  // The stored cursor is the last reading and the sums are those of the readings.
  ghost predicate Follows(k: Counts, rs: seq<AntigravityCursor>) {
    && DecodeAntigravity(k.cursor) == LastReading(rs)
    && k.msgs == SumOfDeltas(MsgTotals(rs))
    && k.tools == SumOfDeltas(ToolTotals(rs))
  }

  lemma TotalsNext(rs: seq<AntigravityCursor>, r: AntigravityCursor)
    ensures SumOfDeltas(MsgTotals(rs + [r])) == SumOfDeltas(MsgTotals(rs)) + ClampedDelta(r.msgs, LastReading(rs).msgs)
    ensures SumOfDeltas(ToolTotals(rs + [r]))
         == SumOfDeltas(ToolTotals(rs)) + ClampedDelta(r.tools, LastReading(rs).tools)
  {
    assert MsgTotals(rs + [r])[..|rs|] == MsgTotals(rs);
    assert ToolTotals(rs + [r])[..|rs|] == ToolTotals(rs);
  }

  // One reading through the cursor.
  lemma TakeReading(k: Counts, id: string, r: AntigravityCursor)
    requires id != "" && r.mtime != DecodeAntigravity(k.cursor).mtime
    ensures var prev := DecodeAntigravity(k.cursor);
            Take(k, ParseAntigravity(id, Counted(r.mtime, r.msgs, r.tools), k.cursor))
            == Counts(EncodeAntigravity(r), k.msgs + ClampedDelta(r.msgs, prev.msgs),
                      k.tools + ClampedDelta(r.tools, prev.tools))
  {
  }

  lemma FollowsNext(k: Counts, rs: seq<AntigravityCursor>, id: string, r: AntigravityCursor)
    requires Follows(k, rs) && id != "" && r.mtime != LastReading(rs).mtime
    ensures Follows(Take(k, ParseAntigravity(id, Counted(r.mtime, r.msgs, r.tools), k.cursor)), rs + [r])
  {
    TakeReading(k, id, r);
    AntigravityRoundTrip(r);
    TotalsNext(rs, r);
  }

  lemma {:induction false} AntigravityFollows(id: string, files: seq<SessionFile>)
    requires id != ""
    ensures Follows(FollowAntigravity(id, files), Readings(files))
  {
    if files == [] {
      assert Readings(files) == [];
    } else {
      var n := |files| - 1;
      AntigravityFollows(id, files[..n]);
      var k, before := FollowAntigravity(id, files[..n]), Readings(files[..n]);
      match files[n] {
        case Unparseable(_) =>
        case Counted(mtime, msgs, tools) =>
          if mtime != LastReading(before).mtime {
            FollowsNext(k, before, id, AntigravityCursor(mtime, msgs, tools));
          }
      }
    }
  }

  // Over any sequence of rewrites of its file, an Antigravity session's message count is the last total
  // read plus all decreases among the totals read, hence exact if and only if the total never fell.
  lemma AntigravityCount(id: string, files: seq<SessionFile>)
    requires id != ""
    ensures var k, totals := FollowAntigravity(id, files), MsgTotals(Readings(files));
            && k.msgs == LastTotal(totals) + SumOfDrops(totals)
            && (k.msgs == LastTotal(totals) <==> NeverFalls(totals))
    ensures var k, totals := FollowAntigravity(id, files), ToolTotals(Readings(files));
            && k.tools == LastTotal(totals) + SumOfDrops(totals)
            && (k.tools == LastTotal(totals) <==> NeverFalls(totals))
  {
    AntigravityFollows(id, files);
    CountIsExactIffNeverFalls(MsgTotals(Readings(files)));
    CountIsExactIffNeverFalls(ToolTotals(Readings(files)));
  }

  lemma TwoDrops(totals: seq<int>)
    requires |totals| == 2
    ensures SumOfDrops(totals) == ClampedDelta(0, totals[0]) + ClampedDelta(totals[0], totals[1])
  {
    var first := totals[..1];
    assert first[..0] == [] && SumOfDrops([]) == 0;
    assert SumOfDrops(first) == ClampedDelta(0, totals[0]);
  }

  lemma TwoReadings(first: SessionFile, second: SessionFile)
    requires first.Counted? && second.Counted? && first.mtime != 0 && second.mtime != first.mtime
    ensures Readings([first, second])
         == [AntigravityCursor(first.mtime, first.msgs, first.tools),
             AntigravityCursor(second.mtime, second.msgs, second.tools)]
  {
    var files := [first, second];
    assert files[..1] == [first] && [first][..0] == [] && Readings([]) == [];
    assert Readings([first]) == [AntigravityCursor(first.mtime, first.msgs, first.tools)];
  }

  // A file that held 5 messages is rewritten with 3: the session counts 5.
  lemma FallIsCounted(id: string)
    requires id != ""
    ensures var files := [Counted(1, 5, 0), Counted(2, 3, 0)];
            FollowAntigravity(id, files).msgs == 5 && LastTotal(MsgTotals(Readings(files))) == 3
  {
    TwoReadings(Counted(1, 5, 0), Counted(2, 3, 0));
    TwoDrops(MsgTotals(Readings([Counted(1, 5, 0), Counted(2, 3, 0)])));
    AntigravityCount(id, [Counted(1, 5, 0), Counted(2, 3, 0)]);
  }

  function FollowOpenCode(id: string, polls: seq<Option<(Int64, Int64)>>): Counts {
    if polls == [] then Counts("", 0, 0) else
      var k := FollowOpenCode(id, polls[..|polls| - 1]);
      Take(k, ParseOpenCode(id, polls[|polls| - 1], k.cursor))
  }

  // The totals of the polls that found the session.
  function FoundRows(polls: seq<Option<(Int64, Int64)>>): seq<OpenCodeCursor> {
    if polls == [] then [] else
      FoundRows(polls[..|polls| - 1])
      + (match polls[|polls| - 1] case None => [] case Some((msgs, tools)) => [OpenCodeCursor(msgs, tools)])
  }

  function RowMsgs(rows: seq<OpenCodeCursor>): seq<int> {
    seq(|rows|, i requires 0 <= i < |rows| => rows[i].msgCount)
  }

  function RowTools(rows: seq<OpenCodeCursor>): seq<int> {
    seq(|rows|, i requires 0 <= i < |rows| => rows[i].toolCount)
  }

  function LastRow(rows: seq<OpenCodeCursor>): OpenCodeCursor {
    if rows == [] then OpenCodeCursor(0, 0) else rows[|rows| - 1]
  }

  // The stored cursor is the last row and the sums are those of the rows.
  ghost predicate RowsFollow(k: Counts, rows: seq<OpenCodeCursor>) {
    && DecodeOpenCode(k.cursor) == Success(LastRow(rows))
    && k.msgs == SumOfDeltas(RowMsgs(rows))
    && k.tools == SumOfDeltas(RowTools(rows))
  }

  lemma RowsNext(rows: seq<OpenCodeCursor>, r: OpenCodeCursor)
    ensures SumOfDeltas(RowMsgs(rows + [r]))
         == SumOfDeltas(RowMsgs(rows)) + ClampedDelta(r.msgCount, LastRow(rows).msgCount)
    ensures SumOfDeltas(RowTools(rows + [r]))
         == SumOfDeltas(RowTools(rows)) + ClampedDelta(r.toolCount, LastRow(rows).toolCount)
  {
    assert RowMsgs(rows + [r])[..|rows|] == RowMsgs(rows);
    assert RowTools(rows + [r])[..|rows|] == RowTools(rows);
  }

  lemma {:induction false} OpenCodeFollows(id: string, polls: seq<Option<(Int64, Int64)>>)
    requires id != ""
    ensures RowsFollow(FollowOpenCode(id, polls), FoundRows(polls))
  {
    if polls == [] {
      assert FoundRows(polls) == [];
    } else {
      var n := |polls| - 1;
      OpenCodeFollows(id, polls[..n]);
      var rows := FoundRows(polls[..n]);
      match polls[n] {
        case None =>
          OpenCodeRoundTrip(LastRow(rows));
          assert FoundRows(polls) == rows;
        case Some((msgs, tools)) =>
          OpenCodeRoundTrip(OpenCodeCursor(msgs, tools));
          RowsNext(rows, OpenCodeCursor(msgs, tools));
      }
    }
  }

  // The same for an OpenCode session, whatever its row counts do between polls.
  lemma OpenCodeCount(id: string, polls: seq<Option<(Int64, Int64)>>)
    requires id != ""
    ensures var k, totals := FollowOpenCode(id, polls), RowMsgs(FoundRows(polls));
            && k.msgs == LastTotal(totals) + SumOfDrops(totals)
            && (k.msgs == LastTotal(totals) <==> NeverFalls(totals))
    ensures var k, totals := FollowOpenCode(id, polls), RowTools(FoundRows(polls));
            && k.tools == LastTotal(totals) + SumOfDrops(totals)
            && (k.tools == LastTotal(totals) <==> NeverFalls(totals))
  {
    var rows := FoundRows(polls);
    OpenCodeFollows(id, polls);
    CountIsExactIffNeverFalls(RowMsgs(rows));
    CountIsExactIffNeverFalls(RowTools(rows));
  }
}
