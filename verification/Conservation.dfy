/**
 From the file to the store: a session backed by one append-only file and seen through one source,
 under any schedule of appends, polls, parse errors, partial last lines and cancellations.

 The file may grow between any two steps of the monitor, also in the middle of a poll.
 */
module Conservation {
  import opened Wrappers
  import opened Session
  import opened MonitorSpec
  import opened Reader
  import Decimal
  import Cursors
  import Pi
  import Claude
  import ClaudeCompletion
  import ClaudeSource
  import ClaudeFollow

  /******* What is counted *******/

  datatype Meter = Messages | Tools | Compactions

  function DeltaOf(m: Meter, u: UpdateInfo): int {
    match m
    case Messages => u.messageCountDelta
    case Tools => u.toolCallCountDelta
    case Compactions => u.compactionCountDelta
  }

  function CountOf(m: Meter, s: SessionInfo): int {
    match m
    case Messages => s.messageCount
    case Tools => s.toolCallCount
    case Compactions => s.compactionCount
  }

  // One session of one source: what its lines weigh and which offset a cursor stands for.
  datatype Feed = Feed(source: string, id: string, meter: Meter, weigh: Bytes -> int, offsetOf: Cursor -> int)

  // The weight of the complete lines before offset `n`.
  function Weight(feed: Feed, file: Bytes, n: int): int
    requires 0 <= n <= |file|
  {
    Sum(feed.weigh, Lines(file[..n]))
  }

  // A call from a cursor at the end of a line commits a cursor at the end of a line, and its delta is the
  // weight of the lines in between but for `missed`.
  ghost predicate TailsAt(feed: Feed, parse: Parse, missed: nat, file: Bytes, c: Cursor)
    requires Boundary(file, feed.offsetOf(c))
  {
    var r := parse(c);
    r.Parsed? && r.update.info.sessionID != "" ==>
      && Boundary(file, feed.offsetOf(r.cursor))
      && Weight(feed, file, feed.offsetOf(r.cursor))
         == Weight(feed, file, feed.offsetOf(c)) + DeltaOf(feed.meter, r.update.info) + missed
  }

  ghost predicate Tails(feed: Feed, parse: Parse, missed: Cursor -> nat, file: Bytes) {
    forall c :: Boundary(file, feed.offsetOf(c)) ==> TailsAt(feed, parse, missed(c), file, c)
  }

  /******* Schedules *******/

  // `missed` says, for a parse of the session, what its delta leaves out at each cursor.
  datatype Act = Append(more: Bytes) | Do(op: Op, missed: Cursor -> nat) | EndPoll

  // The monitor and the file; the sums of committed deltas and of what they left out; and the sum at the last
  // of `removals`.
  datatype Book = Book(world: World, file: Bytes, sum: int, missed: nat, removals: nat, sumAtRemoval: int)

  const OPENED: Book := Book(World(INITIAL, EMPTY_OUTBOX), [], 0, 0, 0, 0)

  predicate IsFocus(feed: Feed, op: Op) {
    op.ParseHandle? && op.source == feed.source && op.handle.id == feed.id
  }

  function FocusCursor(feed: Feed, st: State): Cursor {
    CursorAt(st, CursorKey(feed.source, feed.id))
  }

  predicate Commits(feed: Feed, st: State, op: Op) {
    IsFocus(feed, op)
    && var r := op.parse(FocusCursor(feed, st));
       r.Parsed? && r.update.info.sessionID != ""
  }

  function CommittedDelta(feed: Feed, st: State, op: Op): int {
    if Commits(feed, st, op) then DeltaOf(feed.meter, op.parse(FocusCursor(feed, st)).update.info) else 0
  }

  function Missed(feed: Feed, st: State, op: Op, missed: Cursor -> nat): nat {
    if Commits(feed, st, op) then missed(FocusCursor(feed, st)) else 0
  }

  function Play(cfg: Config, feed: Feed, b: Book, act: Act): Book {
    match act
    case Append(more) => b.(file := b.file + more)
    case Do(op, missed) =>
      var w, st := Step(cfg, b.world, op), b.world.state;
      var sum := b.sum + CommittedDelta(feed, st, op);
      var gone := feed.id in st.store && feed.id !in w.state.store;
      Book(w, b.file, sum, b.missed + Missed(feed, st, op, missed),
           if gone then b.removals + 1 else b.removals, if gone then sum else b.sumAtRemoval)
    case EndPoll => b.(world := World(b.world.state, EMPTY_OUTBOX))
  }

  function PlayAll(cfg: Config, feed: Feed, b: Book, acts: seq<Act>): Book {
    if acts == [] then b else Play(cfg, feed, PlayAll(cfg, feed, b, acts[..|acts| - 1]), acts[|acts| - 1])
  }

  // The session is parsed through its source only, and its parses read the file as it is.
  ghost predicate ActOk(feed: Feed, file: Bytes, act: Act) {
    act.Do? && act.op.ParseHandle? ==>
      if IsFocus(feed, act.op) then Tails(feed, act.op.parse, act.missed, file)
      else act.op.handle.id != feed.id
           && CursorKey(act.op.source, act.op.handle.id) != CursorKey(feed.source, feed.id)
  }

  ghost predicate ActsOk(cfg: Config, feed: Feed, b: Book, acts: seq<Act>) {
    acts != [] ==>
      && ActsOk(cfg, feed, b, acts[..|acts| - 1])
      && ActOk(feed, PlayAll(cfg, feed, b, acts[..|acts| - 1]).file, acts[|acts| - 1])
  }

  /******* The law *******/

  // Committed deltas account for the lines up to the stored cursor, and the stored count for the deltas since
  // the session was last removed.
  ghost predicate Balanced(feed: Feed, b: Book) {
    var st, n := b.world.state, feed.offsetOf(FocusCursor(feed, b.world.state));
    && Boundary(b.file, n)
    && b.sum + b.missed == Weight(feed, b.file, n)
    && (feed.id in st.store ==> CountOf(feed.meter, st.store[feed.id].info) == b.sum - b.sumAtRemoval)
    && (feed.id !in st.store ==> b.sum == b.sumAtRemoval)
    && (b.removals == 0 ==> b.sumAtRemoval == 0)
  }

  lemma CommitBalances(cfg: Config, feed: Feed, b: Book, op: Op, missed: Cursor -> nat)
    requires Balanced(feed, b) && IsFocus(feed, op) && Tails(feed, op.parse, missed, b.file)
    requires Commits(feed, b.world.state, op)
    ensures Balanced(feed, Play(cfg, feed, b, Do(op, missed)))
  {
    var st := b.world.state;
    var c := FocusCursor(feed, st);
    var r := op.parse(c);
    assert TailsAt(feed, op.parse, missed(c), b.file, c);
    var b' := Play(cfg, feed, b, Do(op, missed));
    assert b'.world == Commit(b.world, op.source, op.handle, r.update, r.cursor, op.now);
    assert FocusCursor(feed, b'.world.state) == r.cursor;
    CommitAdds(feed.meter, st, op.handle, r.update, op.now);
  }

  // An update adds its delta to the count of the session, or starts it.
  lemma CommitAdds(m: Meter, st: State, h: SessionHandle, u: Update, now: Time)
    ensures CountOf(m, Updated(st, h, u, now).info)
         == (if h.id in st.store then CountOf(m, st.store[h.id].info) else 0) + DeltaOf(m, u.info)
  {
  }

  lemma OtherParseBalances(cfg: Config, feed: Feed, b: Book, op: Op, missed: Cursor -> nat)
    requires Balanced(feed, b) && op.ParseHandle? && !Commits(feed, b.world.state, op)
    requires ActOk(feed, b.file, Do(op, missed))
    ensures Balanced(feed, Play(cfg, feed, b, Do(op, missed)))
  {
    var r := op.parse(CursorAt(b.world.state, CursorKey(op.source, op.handle.id)));
    var b' := Play(cfg, feed, b, Do(op, missed));
    if r.Parsed? && r.update.info.sessionID != "" {
      assert b'.world == Commit(b.world, op.source, op.handle, r.update, r.cursor, op.now);
      assert FocusCursor(feed, b'.world.state) == FocusCursor(feed, b.world.state);
    }
  }

  // No other step touches cursors or counts, or adds a session.
  lemma SweepKeeps(cfg: Config, w: World, op: Op, m: Meter, id: string)
    requires !op.ParseHandle?
    ensures var w' := Step(cfg, w, op);
            && w'.state.cursors == w.state.cursors
            && (id in w'.state.store ==>
                  id in w.state.store && CountOf(m, w'.state.store[id].info) == CountOf(m, w.state.store[id].info))
  {
  }

  lemma SweepBalances(cfg: Config, feed: Feed, b: Book, op: Op, missed: Cursor -> nat)
    requires Balanced(feed, b) && !op.ParseHandle?
    ensures Balanced(feed, Play(cfg, feed, b, Do(op, missed)))
  {
    SweepKeeps(cfg, b.world, op, feed.meter, feed.id);
  }

  lemma PlayBalances(cfg: Config, feed: Feed, b: Book, act: Act)
    requires Balanced(feed, b) && ActOk(feed, b.file, act)
    ensures Balanced(feed, Play(cfg, feed, b, act))
  {
    match act
    case Append(more) =>
      BoundaryStays(b.file, more, feed.offsetOf(FocusCursor(feed, b.world.state)));
    case EndPoll =>
    case Do(op, missed) =>
      if !op.ParseHandle? {
        SweepBalances(cfg, feed, b, op, missed);
      } else if Commits(feed, b.world.state, op) {
        CommitBalances(cfg, feed, b, op, missed);
      } else {
        OtherParseBalances(cfg, feed, b, op, missed);
      }
  }

  // For every schedule: the committed deltas, plus what single deltas left out, are the weight of the file up to
  // the stored cursor; and until the session is first removed its count is the sum of the deltas.
  lemma {:induction false} Conservation(cfg: Config, feed: Feed, acts: seq<Act>)
    requires feed.offsetOf("") == 0 && ActsOk(cfg, feed, OPENED, acts)
    ensures Balanced(feed, PlayAll(cfg, feed, OPENED, acts))
  {
    if acts == [] {
      assert Lines([]) == [];
      assert Balanced(feed, OPENED);
    } else {
      Conservation(cfg, feed, acts[..|acts| - 1]);
      PlayBalances(cfg, feed, PlayAll(cfg, feed, OPENED, acts[..|acts| - 1]), acts[|acts| - 1]);
    }
  }

  /******* Runs of polls are schedules *******/

  // The steps of the monitor in a schedule, and what it appends to the file.
  function StepsOf(acts: seq<Act>): seq<Op> {
    if acts == [] then [] else
      StepsOf(acts[..|acts| - 1]) + (if acts[|acts| - 1].Do? then [acts[|acts| - 1].op] else [])
  }

  function Appended(acts: seq<Act>): Bytes {
    if acts == [] then [] else
      Appended(acts[..|acts| - 1]) + (if acts[|acts| - 1].Append? then acts[|acts| - 1].more else [])
  }

  // The acts during a poll: each is one of a schedule on the file as it has grown by then.
  ghost predicate PollActsOk(feed: Feed, file: Bytes, acts: seq<Act>) {
    forall i :: 0 <= i < |acts| ==> !acts[i].EndPoll? && ActOk(feed, file + Appended(acts[..i]), acts[i])
  }

  lemma {:induction false} PlayConcat(cfg: Config, feed: Feed, b: Book, x: seq<Act>, y: seq<Act>)
    ensures PlayAll(cfg, feed, b, x + y) == PlayAll(cfg, feed, PlayAll(cfg, feed, b, x), y)
    ensures ActsOk(cfg, feed, b, x) && ActsOk(cfg, feed, PlayAll(cfg, feed, b, x), y) ==> ActsOk(cfg, feed, b, x + y)
  {
    if y == [] {
      assert x + y == x;
    } else {
      assert (x + y)[..|x + y| - 1] == x + y[..|y| - 1];
      PlayConcat(cfg, feed, b, x, y[..|y| - 1]);
    }
  }

  lemma PollActsInit(feed: Feed, file: Bytes, acts: seq<Act>)
    requires PollActsOk(feed, file, acts) && acts != []
    ensures var n := |acts| - 1;
            && PollActsOk(feed, file, acts[..n])
            && !acts[n].EndPoll? && ActOk(feed, file + Appended(acts[..n]), acts[n])
  {
    var n := |acts| - 1;
    forall i | 0 <= i < n
      ensures !acts[..n][i].EndPoll? && ActOk(feed, file + Appended(acts[..n][..i]), acts[..n][i])
    {
      assert acts[..n][..i] == acts[..i] && acts[..n][i] == acts[i];
    }
  }

  lemma ActPlays(cfg: Config, feed: Feed, b: Book, act: Act, file: Bytes, more: Bytes)
    requires b.file == file + more && !act.EndPoll?
    ensures var b' := Play(cfg, feed, b, act);
            && b'.world == (if act.Do? then Step(cfg, b.world, act.op) else b.world)
            && b'.file == file + (more + if act.Append? then act.more else [])
  {
  }

  // The monitor only sees the steps and the file only the appends.
  lemma {:induction false} PollPlays(cfg: Config, feed: Feed, b: Book, acts: seq<Act>)
    requires PollActsOk(feed, b.file, acts)
    ensures var b' := PlayAll(cfg, feed, b, acts);
            b'.world == Run(cfg, b.world, StepsOf(acts)) && b'.file == b.file + Appended(acts)
    ensures ActsOk(cfg, feed, b, acts)
  {
    if acts == [] {
      assert b.file + Appended(acts) == b.file;
    } else {
      var n := |acts| - 1;
      PollActsInit(feed, b.file, acts);
      PollPlays(cfg, feed, b, acts[..n]);
      ActPlays(cfg, feed, PlayAll(cfg, feed, b, acts[..n]), acts[n], b.file, Appended(acts[..n]));
      if acts[n].Do? {
        RunOne(cfg, b.world, StepsOf(acts[..n]), acts[n].op);
      } else {
        assert StepsOf(acts) == StepsOf(acts[..n]);
      }
    }
  }

  // A poll, run to its end or cancelled, is the schedule of its steps, wherever the file grows in between.
  lemma PollIsSchedule(cfg: Config, feed: Feed, before: seq<Act>, acts: seq<Act>, m: Monitoring, r: PollRun)
    requires ActsOk(cfg, feed, OPENED, before)
    requires var b := PlayAll(cfg, feed, OPENED, before);
             b.world == World(m.state, EMPTY_OUTBOX) && PollActsOk(feed, b.file, acts)
    requires StepsOf(acts) == RunOps(cfg, m.state, r)
    ensures var b' := PlayAll(cfg, feed, OPENED, before + acts + [EndPoll]);
            && b'.world == World(AfterRun(cfg, m, r).state, EMPTY_OUTBOX)
            && b'.file == PlayAll(cfg, feed, OPENED, before).file + Appended(acts)
    ensures ActsOk(cfg, feed, OPENED, before + acts + [EndPoll])
  {
    PollPlays(cfg, feed, PlayAll(cfg, feed, OPENED, before), acts);
    PlayConcat(cfg, feed, OPENED, before, acts);
    assert (before + acts + [EndPoll])[..|before + acts|] == before + acts;
    if r.Completed? {
      PollIsItsSteps(cfg, m.state, r.poll);
    }
  }

  // The schedule of a run of polls.
  function Schedule(polls: seq<seq<Act>>): seq<Act> {
    if polls == [] then [] else Schedule(polls[..|polls| - 1]) + polls[|polls| - 1] + [EndPoll]
  }

  function FileAfter(polls: seq<seq<Act>>): Bytes {
    if polls == [] then [] else FileAfter(polls[..|polls| - 1]) + Appended(polls[|polls| - 1])
  }

  // The acts of each poll are its steps, with appends anywhere.
  ghost predicate PollsOk(cfg: Config, feed: Feed, rs: seq<PollRun>, polls: seq<seq<Act>>) {
    && |polls| == |rs|
    && (rs != [] ==>
          var n := |rs| - 1;
          && PollsOk(cfg, feed, rs[..n], polls[..n])
          && StepsOf(polls[n]) == RunOps(cfg, AfterRuns(cfg, STARTED, rs[..n]).state, rs[n])
          && PollActsOk(feed, FileAfter(polls[..n]), polls[n]))
  }

  // So the law holds of the store after every run of polls.
  lemma {:induction false} RunConservation(cfg: Config, feed: Feed, rs: seq<PollRun>, polls: seq<seq<Act>>)
    requires feed.offsetOf("") == 0 && PollsOk(cfg, feed, rs, polls)
    ensures var b := PlayAll(cfg, feed, OPENED, Schedule(polls));
            && b.world == World(AfterRuns(cfg, STARTED, rs).state, EMPTY_OUTBOX) && b.file == FileAfter(polls)
            && ActsOk(cfg, feed, OPENED, Schedule(polls)) && Balanced(feed, b)
  {
    if rs != [] {
      var n := |rs| - 1;
      RunConservation(cfg, feed, rs[..n], polls[..n]);
      PollIsSchedule(cfg, feed, Schedule(polls[..n]), polls[n], AfterRuns(cfg, STARTED, rs[..n]), rs[n]);
    }
    Conservation(cfg, feed, Schedule(polls));
  }

  // A read adds the weight of its lines.
  lemma WeightAdvances(feed: Feed, file: Bytes, n: nat, opts: Options)
    requires Boundary(file, n) && ReadSpec(file, n, opts).Read?
    ensures var r := ReadSpec(file, n, opts);
            && Boundary(file, r.nextOffset)
            && Weight(feed, file, r.nextOffset) == Weight(feed, file, n) + Sum(feed.weigh, r.lines)
  {
    ReadAtBoundary(file, n, opts);
    SumConcat(feed.weigh, Lines(file[..n]), ReadSpec(file, n, opts).lines);
  }

  /******* Pi *******/

  function PiFeed(id: string, meter: Meter, decode: Pi.Decode): Feed {
    Feed("pi", id, meter,
         match meter
         case Messages => Pi.MessageWeight(decode)
         case Tools => Pi.ToolWeight(decode)
         case Compactions => (_ => 0),
         c => match Pi.OffsetOf(c) case Some(n) => n case None => -1)
  }

  lemma PiTails(id: string, meter: Meter, decode: Pi.Decode, parse: Parse, missed: Cursor -> nat, h: SessionHandle,
                file: Bytes)
    requires forall c :: (parse(c).ParseFailed? || parse(c) == Pi.ParseSpec(decode, file, h, c)) && missed(c) == 0
    ensures Tails(PiFeed(id, meter, decode), parse, missed, file)
  {
    var feed := PiFeed(id, meter, decode);
    forall c | Boundary(file, feed.offsetOf(c)) ensures TailsAt(feed, parse, missed(c), file, c) {
      PiTailsAt(feed, id, meter, decode, h, file, c);
    }
  }

  lemma PiTailsAt(feed: Feed, id: string, meter: Meter, decode: Pi.Decode, h: SessionHandle, file: Bytes, c: Cursor)
    requires feed == PiFeed(id, meter, decode) && Boundary(file, feed.offsetOf(c))
    ensures var r, n := Pi.ParseSpec(decode, file, h, c), feed.offsetOf(c);
            r.Parsed? ==>
              && Boundary(file, feed.offsetOf(r.cursor))
              && Weight(feed, file, feed.offsetOf(r.cursor)) == Weight(feed, file, n) + DeltaOf(meter, r.update.info)
  {
    var n := feed.offsetOf(c);
    var read := ReadSpec(file, n, DEFAULT_OPTIONS);
    if read.Read? {
      WeightAdvances(feed, file, n, DEFAULT_OPTIONS);
      NextInRange(file, n);
      Decimal.ParseOfFormat(read.nextOffset);
      Pi.DeltasCount(decode, Pi.NOTHING, read.lines);
      if meter == Compactions {
        SumOfZeros(feed.weigh, read.lines);
      }
    }
  }

  // Every parse of the session is one of the Pi source on the file as it is, or fails.
  ghost predicate PiActs(cfg: Config, id: string, meter: Meter, decode: Pi.Decode, acts: seq<Act>) {
    acts != [] ==>
      var feed := PiFeed(id, meter, decode);
      var b, act := PlayAll(cfg, feed, OPENED, acts[..|acts| - 1]), acts[|acts| - 1];
      && PiActs(cfg, id, meter, decode, acts[..|acts| - 1])
      && (act.Do? ==> if IsFocus(feed, act.op) then PiCall(decode, b.file, act) else ActOk(feed, b.file, act))
  }

  ghost predicate PiCall(decode: Pi.Decode, file: Bytes, act: Act)
    requires act.Do? && act.op.ParseHandle?
  {
    forall c ::
      && (act.op.parse(c).ParseFailed? || act.op.parse(c) == Pi.ParseSpec(decode, file, act.op.handle, c))
      && act.missed(c) == 0
  }

  // For a Pi session the sums are exact: the committed deltas are the weight of the file up to the cursor.
  lemma {:induction false} PiConservation(cfg: Config, id: string, meter: Meter, decode: Pi.Decode, acts: seq<Act>)
    requires PiActs(cfg, id, meter, decode, acts)
    ensures var feed := PiFeed(id, meter, decode);
            var b := PlayAll(cfg, feed, OPENED, acts);
            ActsOk(cfg, feed, OPENED, acts) && Balanced(feed, b) && b.missed == 0
  {
    var feed := PiFeed(id, meter, decode);
    if acts != [] {
      var n := |acts| - 1;
      PiConservation(cfg, id, meter, decode, acts[..n]);
      if acts[n].Do? && IsFocus(feed, acts[n].op) {
        var file := PlayAll(cfg, feed, OPENED, acts[..n]).file;
        PiTails(id, meter, decode, acts[n].op.parse, acts[n].missed, acts[n].op.handle, file);
      }
    }
    Conservation(cfg, feed, acts);
  }

  lemma {:induction false} SumOfZeros(weigh: Bytes -> int, lines: seq<Bytes>)
    requires forall line :: weigh(line) == 0
    ensures Sum(weigh, lines) == 0
    decreases lines
  {
    if lines != [] {
      SumOfZeros(weigh, lines[1..]);
    }
  }

  /******* Claude *******/

  function ClaudeFeed(id: string, meter: Meter, json: Cursors.Json, decode: Claude.Decode): Feed {
    Feed("claude", id, meter,
         match meter
         case Messages => ClaudeSource.MessageWeight(decode)
         case Tools => ClaudeSource.ToolWeight(decode)
         case Compactions => ClaudeSource.CompactionWeight(decode),
         c => ClaudeSource.CursorOf(json, c).offset)
  }

  // The lines a call finds.
  function NewLines(inp: ClaudeSource.Input, c: Cursor): seq<Bytes> {
    match ReadSpec(inp.file, ClaudeSource.CursorOf(inp.json, c).offset, DEFAULT_OPTIONS)
    case Read(lines, _) => lines
    case _ => []
  }

  // A session-end marker is used up on lines none of which is a user or assistant turn: the cursor moves behind
  // them, and their compactions are in no delta.
  predicate DropsCompactions(inp: ClaudeSource.Input, markers: ClaudeSource.Markers, h: SessionHandle, c: Cursor) {
    h.id in markers && Sum(ClaudeSource.MessageWeight(inp.decode), NewLines(inp, c)) == 0
  }

  function Dropped(meter: Meter, inp: ClaudeSource.Input, markers: ClaudeSource.Markers,
                   h: SessionHandle, c: Cursor): nat {
    if meter == Compactions && DropsCompactions(inp, markers, h, c) then CompactionsIn(inp.decode, NewLines(inp, c))
    else 0
  }

  function CompactionsIn(decode: Claude.Decode, lines: seq<Bytes>): (n: nat)
    ensures n == Sum(ClaudeSource.CompactionWeight(decode), lines)
    decreases lines
  {
    if lines == [] then 0 else
      ClaudeSource.RecordCompactions(Claude.RecordOf(decode, lines[0])) + CompactionsIn(decode, lines[1..])
  }

  lemma ClaudeTails(id: string, meter: Meter, inp: ClaudeSource.Input, ch: ClaudeSource.Choices,
                    markers: ClaudeSource.Markers,
                    parse: Parse, missed: Cursor -> nat, h: SessionHandle)
    requires Cursors.Lawful(inp.json)
    requires forall c ::
               && (parse(c).ParseFailed? || parse(c) == ClaudeSource.ParseSpec(inp, ch, markers, h, c))
               && missed(c) == Dropped(meter, inp, markers, h, c)
    ensures Tails(ClaudeFeed(id, meter, inp.json, inp.decode), parse, missed, inp.file)
  {
    var feed := ClaudeFeed(id, meter, inp.json, inp.decode);
    forall c | Boundary(inp.file, feed.offsetOf(c)) ensures TailsAt(feed, parse, missed(c), inp.file, c) {
      ClaudeTailsAt(feed, id, meter, inp, ch, markers, h, c);
    }
  }

  lemma ClaudeTailsAt(feed: Feed, id: string, meter: Meter, inp: ClaudeSource.Input, ch: ClaudeSource.Choices,
                      markers: ClaudeSource.Markers, h: SessionHandle, c: Cursor)
    requires Cursors.Lawful(inp.json)
    requires feed == ClaudeFeed(id, meter, inp.json, inp.decode) && Boundary(inp.file, feed.offsetOf(c))
    ensures var r := ClaudeSource.ParseSpec(inp, ch, markers, h, c);
            r.Parsed? && r.update.info.sessionID != "" ==>
              && Boundary(inp.file, feed.offsetOf(r.cursor))
              && Weight(feed, inp.file, feed.offsetOf(r.cursor))
                 == Weight(feed, inp.file, feed.offsetOf(c)) + DeltaOf(meter, r.update.info)
                    + Dropped(meter, inp, markers, h, c)
  {
    ClaudeSource.CursorAfter(inp, ch, markers, h, c);
    var n := ClaudeSource.CursorOf(inp.json, c).offset;
    if ReadSpec(inp.file, n, DEFAULT_OPTIONS).Read? {
      WeightAdvances(feed, inp.file, n, DEFAULT_OPTIONS);
      BatchDelta(meter, inp, ch, markers, h, c);
    }
  }

  // Without a user or assistant turn only compactions weigh anything, and the call reports none of them.
  lemma NoDataDelta(meter: Meter, inp: ClaudeSource.Input, ch: ClaudeSource.Choices, markers: ClaudeSource.Markers,
                    h: SessionHandle, c: Cursor, b: Claude.Batch)
    requires b == ClaudeSource.BatchOf(inp, ch, ClaudeSource.CursorOf(inp.json, c), NewLines(inp, c)) && !b.hasData
    ensures var r := ClaudeSource.ParseSpec(inp, ch, markers, h, c);
            r.Parsed? && r.update.info.sessionID != "" ==>
              && DeltaOf(meter, r.update.info) == 0
              && Sum(ClaudeFeed(h.id, meter, inp.json, inp.decode).weigh, NewLines(inp, c))
                 == Dropped(meter, inp, markers, h, c)
  {
    ClaudeSource.BatchCounts(inp.decode, NewLines(inp, c), ch.lookups, ClaudeSource.CursorOf(inp.json, c).parents);
  }

  lemma DataDelta(meter: Meter, inp: ClaudeSource.Input, ch: ClaudeSource.Choices, markers: ClaudeSource.Markers,
                  h: SessionHandle, c: Cursor, b: Claude.Batch)
    requires b == ClaudeSource.BatchOf(inp, ch, ClaudeSource.CursorOf(inp.json, c), NewLines(inp, c)) && b.hasData
    ensures var r := ClaudeSource.ParseSpec(inp, ch, markers, h, c);
            r.Parsed? ==>
              && DeltaOf(meter, r.update.info)
                 == Sum(ClaudeFeed(h.id, meter, inp.json, inp.decode).weigh, NewLines(inp, c))
              && Dropped(meter, inp, markers, h, c) == 0
  {
    ClaudeSource.BatchCounts(inp.decode, NewLines(inp, c), ch.lookups, ClaudeSource.CursorOf(inp.json, c).parents);
  }

  // New lines weigh what the call reports and drops.
  lemma BatchDelta(meter: Meter, inp: ClaudeSource.Input, ch: ClaudeSource.Choices, markers: ClaudeSource.Markers,
                   h: SessionHandle, c: Cursor)
    ensures var r := ClaudeSource.ParseSpec(inp, ch, markers, h, c);
            r.Parsed? && r.update.info.sessionID != "" ==>
              Sum(ClaudeFeed(h.id, meter, inp.json, inp.decode).weigh, NewLines(inp, c))
              == DeltaOf(meter, r.update.info) + Dropped(meter, inp, markers, h, c)
  {
    var b := ClaudeSource.BatchOf(inp, ch, ClaudeSource.CursorOf(inp.json, c), NewLines(inp, c));
    if b.hasData {
      DataDelta(meter, inp, ch, markers, h, c, b);
    } else {
      NoDataDelta(meter, inp, ch, markers, h, c, b);
    }
  }

  function CompactionRecord(): Claude.Record {
    Claude.Record("compaction", "", None, "", "", "", None, "", "", Claude.NoData)
  }

  lemma OneLine()
    ensures var file: Bytes := [1, NEWLINE];
            Lines(file[..2]) == [[1]] && ReadSpec(file, 0, DEFAULT_OPTIONS) == Read([[1]], 2)
  {
    var file: Bytes := [1, NEWLINE];
    assert file[..2] == file;
    LinesAreUnique([[1]], []);
    assert Join([[1]]) + [] == file by {
      assert Join([]) == [];
    }
  }

  // Drops happen: one compaction line, read while a session-end marker is waiting, is behind the cursor and
  // in no delta.
  lemma CompactionDropped(json: Cursors.Json, h: SessionHandle, m: ClaudeSource.Marker)
    requires h.id != ""
    ensures var file: Bytes := [1, NEWLINE];
            var feed := ClaudeFeed(h.id, Compactions, json, _ => CompactionRecord());
            var inp := ClaudeSource.Input(json, _ => CompactionRecord(), file);
            var r := ClaudeSource.ParseSpec(inp, ClaudeSource.Choices([], map[], []), map[h.id := m], h, "");
            && r.Parsed? && r.update.info.sessionID == h.id && r.update.info.compactionCountDelta == 0
            && feed.offsetOf(r.cursor) == 2 && Weight(feed, file, 2) == 1
  {
    OneLine();
    Decimal.ParseOfFormat(2);
    var decode: Claude.Decode := _ => CompactionRecord();
    assert Sum(ClaudeSource.CompactionWeight(decode), [[1]]) == 1;
    assert Sum(ClaudeSource.MessageWeight(decode), [[1]]) == 0;
    ClaudeSource.BatchCounts(decode, [[1]], [], map[]);
  }

  // Every parse of the session is one of the Claude source on the file as it is, or fails.
  ghost predicate ClaudeActs(cfg: Config, id: string, meter: Meter, json: Cursors.Json, decode: Claude.Decode,
                             acts: seq<Act>) {
    acts != [] ==>
      var feed := ClaudeFeed(id, meter, json, decode);
      var b, act := PlayAll(cfg, feed, OPENED, acts[..|acts| - 1]), acts[|acts| - 1];
      && ClaudeActs(cfg, id, meter, json, decode, acts[..|acts| - 1])
      && ClaudeActOk(feed, meter, ClaudeSource.Input(json, decode, b.file), act)
  }

  ghost predicate ClaudeActOk(feed: Feed, meter: Meter, inp: ClaudeSource.Input, act: Act) {
    if act.Do? && IsFocus(feed, act.op) then exists ch, markers :: ClaudeCall(meter, inp, ch, markers, act)
    else ActOk(feed, inp.file, act)
  }

  ghost predicate ClaudeCall(meter: Meter, inp: ClaudeSource.Input, ch: ClaudeSource.Choices,
                             markers: ClaudeSource.Markers, act: Act)
    requires act.Do? && act.op.ParseHandle?
  {
    forall c ::
      && (act.op.parse(c).ParseFailed? || act.op.parse(c) == ClaudeSource.ParseSpec(inp, ch, markers, act.op.handle, c))
      && act.missed(c) == Dropped(meter, inp, markers, act.op.handle, c)
  }

  // The act commits a call that used up a marker on lines without a turn, some of them compactions.
  ghost predicate DropsAt(feed: Feed, inp: ClaudeSource.Input, st: State, act: Act) {
    && act.Do? && Commits(feed, st, act.op)
    && exists ch, markers ::
         && ClaudeCall(Compactions, inp, ch, markers, act)
         && DropsCompactions(inp, markers, act.op.handle, FocusCursor(feed, st))
         && CompactionsIn(inp.decode, NewLines(inp, FocusCursor(feed, st))) > 0
  }

  ghost predicate SomeDropped(cfg: Config, id: string, json: Cursors.Json, decode: Claude.Decode, acts: seq<Act>) {
    && acts != []
    && var feed := ClaudeFeed(id, Compactions, json, decode);
       var b := PlayAll(cfg, feed, OPENED, acts[..|acts| - 1]);
       || SomeDropped(cfg, id, json, decode, acts[..|acts| - 1])
       || DropsAt(feed, ClaudeSource.Input(json, decode, b.file), b.world.state, acts[|acts| - 1])
  }

  lemma DropsAreMissed(id: string, inp: ClaudeSource.Input, st: State, act: Act)
    requires ClaudeActOk(ClaudeFeed(id, Compactions, inp.json, inp.decode), Compactions, inp, act) && act.Do?
    ensures var feed := ClaudeFeed(id, Compactions, inp.json, inp.decode);
            DropsAt(feed, inp, st, act) <==> Missed(feed, st, act.op, act.missed) > 0
  {
    var feed := ClaudeFeed(id, Compactions, inp.json, inp.decode);
    if Commits(feed, st, act.op) {
      var ch, markers :| ClaudeCall(Compactions, inp, ch, markers, act);
      assert act.missed(FocusCursor(feed, st))
          == Dropped(Compactions, inp, markers, act.op.handle, FocusCursor(feed, st));
    }
  }

  lemma {:induction false} MissedIffDropped(cfg: Config, id: string, json: Cursors.Json, decode: Claude.Decode,
                                            acts: seq<Act>)
    requires ClaudeActs(cfg, id, Compactions, json, decode, acts)
    ensures PlayAll(cfg, ClaudeFeed(id, Compactions, json, decode), OPENED, acts).missed > 0
            <==> SomeDropped(cfg, id, json, decode, acts)
  {
    if acts != [] {
      var n := |acts| - 1;
      MissedIffDropped(cfg, id, json, decode, acts[..n]);
      var b := PlayAll(cfg, ClaudeFeed(id, Compactions, json, decode), OPENED, acts[..n]);
      if acts[n].Do? {
        DropsAreMissed(id, ClaudeSource.Input(json, decode, b.file), b.world.state, acts[n]);
      }
    }
  }

  lemma ClaudeActIsOk(feed: Feed, id: string, meter: Meter, inp: ClaudeSource.Input, act: Act)
    requires Cursors.Lawful(inp.json)
    requires feed == ClaudeFeed(id, meter, inp.json, inp.decode) && ClaudeActOk(feed, meter, inp, act)
    ensures ActOk(feed, inp.file, act)
    ensures act.Do? && IsFocus(feed, act.op) && meter != Compactions ==> forall c :: act.missed(c) == 0
  {
    if act.Do? && IsFocus(feed, act.op) {
      var ch, markers :| ClaudeCall(meter, inp, ch, markers, act);
      ClaudeTails(id, meter, inp, ch, markers, act.op.parse, act.missed, act.op.handle);
    }
  }

  // For a Claude session messages and tools are exact; compactions are exact if and only if no call dropped any.
  lemma {:induction false} ClaudeConservation(cfg: Config, id: string, meter: Meter, json: Cursors.Json,
                                              decode: Claude.Decode, acts: seq<Act>)
    requires Cursors.Lawful(json) && ClaudeActs(cfg, id, meter, json, decode, acts)
    ensures var feed := ClaudeFeed(id, meter, json, decode);
            var b := PlayAll(cfg, feed, OPENED, acts);
            && ActsOk(cfg, feed, OPENED, acts) && Balanced(feed, b)
            && (b.sum == Weight(feed, b.file, feed.offsetOf(FocusCursor(feed, b.world.state)))
                <==> !(meter == Compactions && SomeDropped(cfg, id, json, decode, acts)))
            && (meter != Compactions ==> b.missed == 0)
  {
    var feed := ClaudeFeed(id, meter, json, decode);
    if acts != [] {
      var n := |acts| - 1;
      ClaudeConservation(cfg, id, meter, json, decode, acts[..n]);
      var file := PlayAll(cfg, feed, OPENED, acts[..n]).file;
      ClaudeActIsOk(feed, id, meter, ClaudeSource.Input(json, decode, file), acts[n]);
    }
    Conservation(cfg, feed, acts);
    if meter == Compactions {
      MissedIffDropped(cfg, id, json, decode, acts);
    }
  }

  /******* Claude subagents under the monitor *******/

  // Each act is one call of the session's source: a parse answered as the source does, or one that fails; anything
  // else a call that fails and may see the file grow.
  ghost predicate Answers(cfg: Config, feed: Feed, json: Cursors.Json, decode: Claude.Decode, acts: seq<Act>,
                          calls: seq<ClaudeFollow.Call>)
  {
    && |acts| == |calls|
    && (acts != [] ==>
          var n := |acts| - 1;
          && Answers(cfg, feed, json, decode, acts[..n], calls[..n])
          && AnswersAt(feed, json, decode, PlayAll(cfg, feed, OPENED, acts[..n]), acts[n], calls[n]))
  }

  ghost predicate AnswersAt(feed: Feed, json: Cursors.Json, decode: Claude.Decode, b: Book, act: Act,
                            call: ClaudeFollow.Call)
  {
    match act
    case Append(more) => call == ClaudeFollow.Failed(more)
    case EndPoll => call == ClaudeFollow.Failed([])
    case Do(op, _) =>
      var c := FocusCursor(feed, b.world.state);
      if !IsFocus(feed, op) || op.parse(c).ParseFailed? then call == ClaudeFollow.Failed([])
      else
        && call.Call? && call.more == [] && call.h == op.handle
        && op.parse(c)
           == ClaudeSource.ParseSpec(ClaudeSource.Input(json, decode, b.file), call.ch, call.markers, call.h, c)
  }

  // What a step does to the session's cursor.
  lemma FocusCursorAfter(cfg: Config, feed: Feed, file: Bytes, w: World, op: Op, missed: Cursor -> nat)
    requires ActOk(feed, file, Do(op, missed))
    ensures FocusCursor(feed, Step(cfg, w, op).state)
         == if Commits(feed, w.state, op) then op.parse(FocusCursor(feed, w.state)).cursor
            else FocusCursor(feed, w.state)
  {
    if !op.ParseHandle? {
      SweepKeeps(cfg, w, op, feed.meter, feed.id);
    }
  }

  lemma {:induction false} MonitorFollows(cfg: Config, feed: Feed, json: Cursors.Json, decode: Claude.Decode,
                                          acts: seq<Act>, calls: seq<ClaudeFollow.Call>)
    requires ActsOk(cfg, feed, OPENED, acts) && Answers(cfg, feed, json, decode, acts, calls)
    ensures var b, f := PlayAll(cfg, feed, OPENED, acts), ClaudeFollow.Follow(json, decode, calls);
            f.file == b.file && f.cursor == FocusCursor(feed, b.world.state)
  {
    if acts != [] {
      var n := |acts| - 1;
      MonitorFollows(cfg, feed, json, decode, acts[..n], calls[..n]);
      var b := PlayAll(cfg, feed, OPENED, acts[..n]);
      assert b.file + [] == b.file;
      if acts[n].Do? {
        FocusCursorAfter(cfg, feed, b.file, b.world, acts[n].op, acts[n].missed);
      }
    }
  }

  // After every run of polls, completed or cancelled: the subagents completed by what the monitor has kept of a Claude
  // session are those whose tool use returned, after they had reported, in the file up to the stored cursor.
  lemma MonitorCompletions(cfg: Config, id: string, json: Cursors.Json, decode: Claude.Decode, rs: seq<PollRun>,
                           polls: seq<seq<Act>>, calls: seq<ClaudeFollow.Call>, t: string)
    requires Cursors.Lawful(json)
    requires var feed := ClaudeFeed(id, Messages, json, decode);
             PollsOk(cfg, feed, rs, polls) && Answers(cfg, feed, json, decode, Schedule(polls), calls)
    requires ClaudeFollow.CallsOk(json, decode, calls)
    ensures var feed := ClaudeFeed(id, Messages, json, decode);
            var n := feed.offsetOf(FocusCursor(feed, AfterRuns(cfg, STARTED, rs).state));
            && Boundary(FileAfter(polls), n)
            && var records := ClaudeFollow.RecordList(decode, Lines(FileAfter(polls)[..n]));
               ClaudeCompletion.Paired(records) ==>
                 (t in ClaudeCompletion.Completed(ClaudeFollow.Follow(json, decode, calls).parts)
                  <==> ClaudeCompletion.Finished(records, t))
  {
    var feed := ClaudeFeed(id, Messages, json, decode);
    RunConservation(cfg, feed, rs, polls);
    MonitorFollows(cfg, feed, json, decode, Schedule(polls), calls);
    ClaudeFollow.FollowedCompletions(json, decode, calls, t);
  }
}
