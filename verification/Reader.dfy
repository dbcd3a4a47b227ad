/**
 Incremental reading of newline-terminated files: `ReadLines`, the tail reader the sources use,
 and `ForEachEntry`, the visitor over decoded entries.

 A file is a sequence of bytes that only grows.  `Lines` and `Rest` say what its complete lines
 and its unfinished last line are.
 */
module Reader {
  import opened Wrappers
  import Decimal

  newtype byte = x: int | 0 <= x < 256

  type Bytes = seq<byte>

  const NEWLINE: byte := 10

  const DEFAULT_MAX_FILE_SIZE: int := 100 * 1024 * 1024
  const DEFAULT_MAX_LINE_SIZE: int := 1024 * 1024

  /******* Lines *******/

  // Position of the first `b` at or after `i`, or the length of `s`.
  function IndexFrom(s: Bytes, b: byte, i: nat): (r: nat)
    requires i <= |s|
    ensures i <= r <= |s|
    decreases |s| - i
  {
    if i == |s| || s[i] == b then i else IndexFrom(s, b, i + 1)
  }

  lemma {:induction false} IndexFromIsFirst(s: Bytes, b: byte, i: nat)
    requires i <= |s|
    ensures var r := IndexFrom(s, b, i);
            (r < |s| ==> s[r] == b) && forall j :: i <= j < r ==> s[j] != b
    decreases |s| - i
  {
    if i < |s| && s[i] != b {
      IndexFromIsFirst(s, b, i + 1);
    }
  }

  // What a read starting at `offset` sees: seeking is only done to positive offsets, and past the
  // end there is nothing.
  function From(file: Bytes, offset: int): (data: Bytes)
    ensures |data| == if offset <= 0 then |file| else if offset <= |file| then |file| - offset else 0
    decreases |file|
  {
    if offset <= 0 || file == [] then file else From(file[1..], offset - 1)
  }

  lemma {:induction false} FromIs(head: Bytes, tail: Bytes)
    ensures From(head + tail, |head|) == tail
    decreases head
  {
    if head == [] {
      assert head + tail == tail;
    } else {
      assert (head + tail)[1..] == head[1..] + tail;
      FromIs(head[1..], tail);
    }
  }

  lemma FromSlice(file: Bytes, offset: nat)
    requires offset <= |file|
    ensures From(file, offset) == file[offset..]
  {
    assert file == file[..offset] + file[offset..];
    FromIs(file[..offset], file[offset..]);
  }

  predicate HasLine(s: Bytes) {
    IndexFrom(s, NEWLINE, 0) < |s|
  }

  function FirstLine(s: Bytes): (line: Bytes)
    requires HasLine(s)
    ensures |line| < |s|
  {
    s[..IndexFrom(s, NEWLINE, 0)]
  }

  function AfterLine(s: Bytes): (tail: Bytes)
    requires HasLine(s)
    ensures |tail| == |s| - |FirstLine(s)| - 1
  {
    From(s, IndexFrom(s, NEWLINE, 0) + 1)
  }

  lemma SplitLine(s: Bytes)
    requires HasLine(s)
    ensures s == FirstLine(s) + [NEWLINE] + AfterLine(s) && NEWLINE !in FirstLine(s)
  {
    IndexFromIsFirst(s, NEWLINE, 0);
    FromSlice(s, IndexFrom(s, NEWLINE, 0) + 1);
  }

  lemma FirstLineIs(line: Bytes, tail: Bytes)
    requires NEWLINE !in line
    ensures HasLine(line + [NEWLINE] + tail)
    ensures FirstLine(line + [NEWLINE] + tail) == line && AfterLine(line + [NEWLINE] + tail) == tail
  {
    var s := line + [NEWLINE] + tail;
    IndexFromIsFirst(s, NEWLINE, 0);
    assert s[|line|] == NEWLINE;
    assert forall j :: 0 <= j < |line| ==> s[j] == line[j];
    FromSlice(s, |line| + 1);
  }

  lemma NoLine(s: Bytes)
    ensures HasLine(s) <==> NEWLINE in s
  {
    IndexFromIsFirst(s, NEWLINE, 0);
  }

  // The complete lines, without their newlines.
  function Lines(s: Bytes): seq<Bytes>
    decreases |s|
  {
    if HasLine(s) then [FirstLine(s)] + Lines(AfterLine(s)) else []
  }

  // The unfinished last line.
  function Rest(s: Bytes): (r: Bytes)
    ensures |r| <= |s|
    decreases |s|
  {
    if HasLine(s) then Rest(AfterLine(s)) else s
  }

  function Join(lines: seq<Bytes>): Bytes {
    if lines == [] then [] else lines[0] + [NEWLINE] + Join(lines[1..])
  }

  // The weight of some lines, such as how many of them count as messages.
  function Sum(weigh: Bytes -> int, lines: seq<Bytes>): int {
    if lines == [] then 0 else weigh(lines[0]) + Sum(weigh, lines[1..])
  }

  lemma {:induction false} SumConcat(weigh: Bytes -> int, a: seq<Bytes>, b: seq<Bytes>)
    ensures Sum(weigh, a + b) == Sum(weigh, a) + Sum(weigh, b)
    decreases a
  {
    if a == [] {
      assert a + b == b;
    } else {
      assert (a + b)[1..] == a[1..] + b;
      SumConcat(weigh, a[1..], b);
    }
  }

  // Rejoined, the lines and the rest are the file, and no line contains a newline.
  lemma {:induction false} LinesRejoin(s: Bytes)
    ensures Join(Lines(s)) + Rest(s) == s && NEWLINE !in Rest(s)
    ensures forall i :: 0 <= i < |Lines(s)| ==> NEWLINE !in Lines(s)[i]
    decreases |s|
  {
    if HasLine(s) {
      var line, tail := FirstLine(s), AfterLine(s);
      SplitLine(s);
      LinesRejoin(tail);
      assert Lines(s)[1..] == Lines(tail);
      assert Join(Lines(s)) == line + [NEWLINE] + Join(Lines(tail));
    } else {
      NoLine(s);
    }
  }

  // What is appended later leaves the lines already complete alone.
  lemma {:induction false} LinesGrow(a: Bytes, b: Bytes)
    ensures Lines(a + b) == Lines(a) + Lines(Rest(a) + b)
    ensures Rest(a + b) == Rest(Rest(a) + b)
    decreases |a|
  {
    if HasLine(a) {
      var line, tail := FirstLine(a), AfterLine(a);
      SplitLine(a);
      assert a + b == line + [NEWLINE] + (tail + b);
      FirstLineIs(line, tail + b);
      LinesGrow(tail, b);
    }
  }

  /******* ReadLines *******/

  // A zero or negative cap means the default.
  datatype Options = Options(maxFileSize: int, maxLineSize: int) {
    function FileSize(): int {
      if maxFileSize <= 0 then DEFAULT_MAX_FILE_SIZE else maxFileSize
    }

    function LineSize(): int {
      if maxLineSize <= 0 then DEFAULT_MAX_LINE_SIZE else maxLineSize
    }
  }

  const DEFAULT_OPTIONS: Options := Options(0, 0)

  datatype ReadResult = FileTooLarge | LineTooLong | Read(lines: seq<Bytes>, nextOffset: int)

  // No line is longer than the cap.
  predicate Fits(lines: seq<Bytes>, cap: int) {
    lines == [] || (|lines[0]| <= cap && Fits(lines[1..], cap))
  }

  // The read of a file of `size` bytes that sees `data` from `offset` on.
  function ReadData(data: Bytes, offset: int, size: int, opts: Options): ReadResult {
    if size > opts.FileSize() then FileTooLarge
    else if !Fits(Lines(data), opts.LineSize()) then LineTooLong
    else Read(Lines(data), offset + |data| - |Rest(data)|)
  }

  function ReadSpec(file: Bytes, offset: int, opts: Options): ReadResult {
    ReadData(From(file, offset), offset, |file|, opts)
  }

  // The loop of `ReadLines` on what remains of the data; `lines` were read before.
  function Scan(remaining: Bytes, offset: int, lines: seq<Bytes>, cap: int): ReadResult
    decreases |remaining|
  {
    if !HasLine(remaining) then Read(lines, offset)
    else if |FirstLine(remaining)| > cap then LineTooLong
    else Scan(AfterLine(remaining), offset + |FirstLine(remaining)| + 1, lines + [FirstLine(remaining)], cap)
  }

  lemma {:induction false} ScanIs(s: Bytes, offset: int, lines: seq<Bytes>, cap: int)
    ensures Scan(s, offset, lines, cap)
         == if Fits(Lines(s), cap) then Read(lines + Lines(s), offset + |s| - |Rest(s)|) else LineTooLong
    decreases |s|
  {
    if HasLine(s) {
      var line, tail := FirstLine(s), AfterLine(s);
      assert Lines(s)[1..] == Lines(tail);
      ScanIs(tail, offset + |line| + 1, lines + [line], cap);
      assert (lines + [line]) + Lines(tail) == lines + Lines(s);
    } else {
      assert Lines(s) == [] && lines + [] == lines;
    }
  }

  method ReadLines(file: Bytes, offset: int, opts: Options) returns (r: ReadResult)
    ensures r == ReadSpec(file, offset, opts)
  {
    if |file| > opts.FileSize() {
      return FileTooLarge;
    }
    var data := From(file, offset);
    ScanIs(data, offset, [], opts.LineSize());
    assert [] + Lines(data) == Lines(data);
    if |data| == 0 {
      return Read([], offset);
    }
    var maxLine := opts.LineSize();
    var lines: seq<Bytes> := [];
    var currentOffset, remaining := offset, data;
    while |remaining| > 0
      invariant Scan(remaining, currentOffset, lines, maxLine) == Scan(data, offset, [], maxLine)
      decreases |remaining|
    {
      if !HasLine(remaining) {
        break;
      }
      var line := FirstLine(remaining);
      if |line| > maxLine {
        return LineTooLong;
      }
      remaining := AfterLine(remaining);
      lines := lines + [line];
      currentOffset := currentOffset + |line| + 1;
    }
    return Read(lines, currentOffset);
  }

  // Offsets of a file that is read stay 64-bit integers.
  lemma NextInRange(file: Bytes, offset: Decimal.Int64)
    ensures var r := ReadSpec(file, offset, DEFAULT_OPTIONS);
            r.Read? ==> Decimal.InRange(r.nextOffset)
  {
  }

  lemma SliceSuffix(a: Bytes, b: Bytes, c: Bytes)
    ensures (a + (b + c))[|a|..|a| + |b|] == b && (a + (b + c))[|a| + |b|..] == c
  {
  }

  // A read from a valid offset returns the bytes between the two offsets, line by line, and leaves
  // no complete line behind.
  lemma ReadIsExact(file: Bytes, offset: nat, opts: Options)
    requires offset <= |file| && ReadSpec(file, offset, opts).Read?
    ensures var r := ReadSpec(file, offset, opts);
            && offset <= r.nextOffset <= |file|
            && Join(r.lines) == file[offset..r.nextOffset]
            && NEWLINE !in file[r.nextOffset..]
            && forall i :: 0 <= i < |r.lines| ==> NEWLINE !in r.lines[i]
  {
    var head, data := file[..offset], file[offset..];
    FromSlice(file, offset);
    LinesRejoin(data);
    assert file == head + (Join(Lines(data)) + Rest(data));
    SliceSuffix(head, Join(Lines(data)), Rest(data));
  }

  lemma {:induction false} FitsIff(lines: seq<Bytes>, cap: int)
    ensures Fits(lines, cap) <==> forall line :: line in lines ==> |line| <= cap
    decreases lines
  {
    if lines != [] {
      FitsIff(lines[1..], cap);
      assert lines == [lines[0]] + lines[1..];
    }
  }

  // A read fails exactly for a file over its cap or a complete line over its cap; the caps are 100 MiB and 1 MiB
  // where the options give none.
  lemma ReadFailsIff(file: Bytes, offset: nat, opts: Options)
    requires offset <= |file|
    ensures var fileCap := if opts.maxFileSize > 0 then opts.maxFileSize else 104857600;
            var lineCap := if opts.maxLineSize > 0 then opts.maxLineSize else 1048576;
            var long := exists line :: line in Lines(file[offset..]) && |line| > lineCap;
            && (ReadSpec(file, offset, opts).FileTooLarge? <==> |file| > fileCap)
            && (ReadSpec(file, offset, opts).LineTooLong? <==> |file| <= fileCap && long)
  {
    FromSlice(file, offset);
    FitsIff(Lines(file[offset..]), opts.LineSize());
  }

  // `n` is the end of a complete line, or the start of the file.
  predicate Boundary(file: Bytes, n: int) {
    0 <= n <= |file| && Rest(file[..n]) == []
  }

  lemma BoundaryStays(file: Bytes, more: Bytes, n: nat)
    requires Boundary(file, n)
    ensures Boundary(file + more, n) && (file + more)[..n] == file[..n]
  {
    assert (file + more)[..n] == file[..n];
  }

  // The bytes read so far, then the complete lines of the unread ones.
  lemma LinesAppend(head: Bytes, data: Bytes)
    requires Rest(head) == []
    ensures Lines(head + Join(Lines(data))) == Lines(head) + Lines(data)
    ensures Rest(head + Join(Lines(data))) == []
  {
    var joined := Join(Lines(data));
    LinesGrow(head, joined);
    LinesRejoin(data);
    LinesAreUnique(Lines(data), []);
    assert joined + [] == joined == [] + joined;
  }

  lemma TakeMore(file: Bytes, n: nat, more: Bytes, rest: Bytes)
    requires n <= |file| && file[n..] == more + rest
    ensures n + |more| <= |file| && file[..n + |more|] == file[..n] + more
  {
    assert |more + rest| == |file| - n;
    assert file[n..][..|more|] == more;
  }

  // A read from a boundary ends at a boundary, and adds its lines to those before.
  lemma ReadAtBoundary(file: Bytes, n: nat, opts: Options)
    requires Boundary(file, n) && ReadSpec(file, n, opts).Read?
    ensures var r := ReadSpec(file, n, opts);
            && n <= r.nextOffset && Boundary(file, r.nextOffset)
            && Lines(file[..r.nextOffset]) == Lines(file[..n]) + r.lines
            && (r.lines == [] ==> r.nextOffset == n)
  {
    FromSlice(file, n);
    BoundaryMoves(file, n);
  }

  // The complete lines behind a boundary end at a boundary.
  lemma BoundaryMoves(file: Bytes, n: nat)
    requires Boundary(file, n)
    ensures var data := file[n..];
            var next := |file| - |Rest(data)|;
            && n <= next && Boundary(file, next)
            && Lines(file[..next]) == Lines(file[..n]) + Lines(data)
            && (Lines(data) == [] ==> next == n)
  {
    var data := file[n..];
    var joined := Join(Lines(data));
    LinesRejoin(data);
    LinesAppend(file[..n], data);
    TakeMore(file, n, joined, Rest(data));
    assert |file| - |Rest(data)| == n + |joined|;
  }

  // Lines are unique: without newlines in them, and rejoining to a prefix whose rest has none.
  lemma {:induction false} LinesAreUnique(lines: seq<Bytes>, rest: Bytes)
    requires NEWLINE !in rest
    requires forall i :: 0 <= i < |lines| ==> NEWLINE !in lines[i]
    ensures Lines(Join(lines) + rest) == lines && Rest(Join(lines) + rest) == rest
    decreases lines
  {
    var s := Join(lines) + rest;
    if lines == [] {
      assert s == rest;
      NoLine(rest);
    } else {
      var tail := Join(lines[1..]) + rest;
      assert s == lines[0] + [NEWLINE] + tail;
      FirstLineIs(lines[0], tail);
      LinesAreUnique(lines[1..], rest);
    }
  }

  /******* Tailing a growing file *******/

  // Appends `steps` one by one and reads after each, from the offset the last read returned.
  function Tail(file: Bytes, offset: nat, steps: seq<Bytes>, opts: Options): ReadResult
    requires offset <= |file|
    decreases steps
  {
    if steps == [] then Read([], offset) else
      var grown := file + steps[0];
      match ReadSpec(grown, offset, opts)
      case Read(lines, next) =>
        assert offset <= next <= |grown| by { ReadIsExact(grown, offset, opts); }
        (match Tail(grown, next, steps[1..], opts)
         case Read(more, end) => Read(lines + more, end)
         case error => error)
      case error => error
  }

  function Concat(parts: seq<Bytes>): Bytes {
    if parts == [] then [] else parts[0] + Concat(parts[1..])
  }

  lemma {:induction false} FitsConcat(a: seq<Bytes>, b: seq<Bytes>, cap: int)
    ensures Fits(a + b, cap) <==> Fits(a, cap) && Fits(b, cap)
    decreases a
  {
    if a == [] {
      assert a + b == b;
    } else {
      assert (a + b)[1..] == a[1..] + b;
      FitsConcat(a[1..], b, cap);
    }
  }

  lemma ReadFrom(file: Bytes, head: Bytes, data: Bytes, opts: Options)
    requires file == head + data
    ensures ReadSpec(file, |head|, opts) == ReadData(data, |head|, |file|, opts)
  {
    FromIs(head, data);
  }

  // The same on what is unread: each step appends to it, and a read leaves the unfinished line.
  function TailData(data: Bytes, offset: int, size: int, steps: seq<Bytes>, opts: Options): ReadResult
    decreases steps
  {
    if steps == [] then Read([], offset) else
      var size' := size + |steps[0]|;
      match ReadData(data + steps[0], offset, size', opts)
      case Read(lines, next) =>
        (match TailData(Rest(data + steps[0]), next, size', steps[1..], opts)
         case Read(more, end) => Read(lines + more, end)
         case error => error)
      case error => error
  }

  lemma {:induction false} TailIsTailData(file: Bytes, head: Bytes, data: Bytes, steps: seq<Bytes>, opts: Options)
    requires file == head + data
    ensures Tail(file, |head|, steps, opts) == TailData(data, |head|, |file|, steps, opts)
    decreases steps
  {
    if steps != [] {
      var grown, unread := file + steps[0], data + steps[0];
      assert grown == head + unread;
      ReadFrom(grown, head, unread, opts);
      var first := ReadData(unread, |head|, |grown|, opts);
      if first.Read? {
        var head', rest := SplitUnread(grown, head, unread);
        TailIsTailData(grown, head', rest, steps[1..], opts);
        assert first.nextOffset == |head'|;
      }
    }
  }

  // A file splits again at the end of its complete lines.
  lemma SplitUnread(file: Bytes, head: Bytes, data: Bytes) returns (head': Bytes, rest: Bytes)
    requires file == head + data
    ensures file == head' + rest && rest == Rest(data) && |head'| == |head| + |data| - |rest|
  {
    LinesRejoin(data);
    head', rest := head + Join(Lines(data)), Rest(data);
  }

  // A read of more data is the earlier read, then a read of what was unread with the new data.
  lemma ReadMore(data: Bytes, more: Bytes, offset: int, size: int, opts: Options)
    requires size <= opts.FileSize()
    ensures var first, one := ReadData(data, offset, size, opts), ReadData(data + more, offset, size, opts);
            if first.Read? then
              match ReadData(Rest(data) + more, first.nextOffset, size, opts)
              case Read(lines, next) => one == Read(first.lines + lines, next)
              case _ => !one.Read?
            else
              !one.Read?
  {
    LinesGrow(data, more);
    FitsConcat(Lines(data), Lines(Rest(data) + more), opts.LineSize());
  }

  lemma {:induction false} TailDataIsOneRead(data: Bytes, offset: int, size: int, steps: seq<Bytes>, opts: Options)
    requires steps != []
    ensures var one := ReadData(data + Concat(steps), offset, size + |Concat(steps)|, opts);
            var all := TailData(data, offset, size, steps, opts);
            (one.Read? <==> all.Read?) && (one.Read? ==> all == one)
    decreases steps
  {
    var unread, later := data + steps[0], steps[1..];
    assert data + Concat(steps) == unread + Concat(later);
    var size' := size + |steps[0]|;
    var first := ReadData(unread, offset, size', opts);
    if later == [] {
      assert unread + Concat(later) == unread;
      if first.Read? {
        assert first.lines + [] == first.lines;
      }
    } else {
      if first.Read? {
        TailDataIsOneRead(Rest(unread), first.nextOffset, size', later, opts);
      }
      if size' + |Concat(later)| <= opts.FileSize() {
        ReadMore(unread, Concat(later), offset, size' + |Concat(later)|, opts);
      }
    }
  }

  // Reading a growing file in any number of steps gives the lines and the final offset of one read,
  // and fails exactly when that one read fails.
  lemma TailIsOneRead(file: Bytes, offset: nat, steps: seq<Bytes>, opts: Options)
    requires offset <= |file| && steps != []
    ensures var one, all := ReadSpec(file + Concat(steps), offset, opts), Tail(file, offset, steps, opts);
            (one.Read? <==> all.Read?) && (one.Read? ==> all == one)
  {
    assert file == file[..offset] + file[offset..];
    TailOfSplit(file, file[..offset], file[offset..], steps, opts);
  }

  lemma TailOfSplit(file: Bytes, head: Bytes, data: Bytes, steps: seq<Bytes>, opts: Options)
    requires file == head + data && steps != []
    ensures var one, all := ReadSpec(file + Concat(steps), |head|, opts), Tail(file, |head|, steps, opts);
            (one.Read? <==> all.Read?) && (one.Read? ==> all == one)
  {
    var more := Concat(steps);
    TailIsTailData(file, head, data, steps, opts);
    TailDataIsOneRead(data, |head|, |file|, steps, opts);
    assert file + more == head + (data + more);
    ReadFrom(file + more, head, data + more, opts);
  }

  /******* ForEachEntry *******/

  const MAX_FILE_SIZE: int := 100 * 1024 * 1024

  // With its newline.
  const MAX_LINE_SIZE: int := 1024 * 1024

  // Decoding a line gives an entry, or nothing for what is not JSON.
  type Decoder<!E> = Bytes -> Option<E>

  // The visitor is told what it has visited, the last entry included, and says whether to go on.
  type Visitor<!E> = seq<E> -> bool

  datatype Visit<E> = TooLarge | Visited(entries: seq<E>, offset: int)

  function EntryOf<E>(decode: Decoder<E>, line: Bytes): Option<E> {
    if |line| + 1 > MAX_LINE_SIZE then None else decode(line)
  }

  // Visits the lines of `s`, which starts at `offset`: oversized and undecodable lines are skipped,
  // and the visitor may stop after any entry.  `seen` was visited before.
  function VisitFrom<E>(decode: Decoder<E>, visitor: Visitor<E>, s: Bytes, offset: int, seen: seq<E>): (r: Visit<E>)
    ensures r.Visited?
    decreases |s|
  {
    if !HasLine(s) then Visited(seen, offset) else
      var next := offset + |FirstLine(s)| + 1;
      match EntryOf(decode, FirstLine(s))
      case None => VisitFrom(decode, visitor, AfterLine(s), next, seen)
      case Some(e) =>
        if visitor(seen + [e]) then VisitFrom(decode, visitor, AfterLine(s), next, seen + [e])
        else Visited(seen + [e], next)
  }

  method ForEachEntry<E>(file: Bytes, offset: int, decode: Decoder<E>, visitor: Visitor<E>) returns (r: Visit<E>)
    ensures r == if |file| > MAX_FILE_SIZE then TooLarge else VisitFrom(decode, visitor, From(file, offset), offset, [])
  {
    if |file| > MAX_FILE_SIZE {
      return TooLarge;
    }
    var entries: seq<E> := [];
    var parsedOffset, remaining := offset, From(file, offset);
    while HasLine(remaining)
      invariant VisitFrom(decode, visitor, remaining, parsedOffset, entries)
             == VisitFrom(decode, visitor, From(file, offset), offset, [])
      decreases |remaining|
    {
      var line := FirstLine(remaining);
      remaining := AfterLine(remaining);
      parsedOffset := parsedOffset + |line| + 1;
      if |line| + 1 <= MAX_LINE_SIZE {
        var entry := decode(line);
        if entry.Some? {
          entries := entries + [entry.value];
          if !visitor(entries) {
            return Visited(entries, parsedOffset);
          }
        }
      }
    }
    return Visited(entries, parsedOffset);
  }

  // A visitor that never stops.
  function Always<E>(): Visitor<E> {
    _ => true
  }

  lemma {:induction false} SeenFirst<E>(decode: Decoder<E>, s: Bytes, offset: int, seen: seq<E>)
    ensures var r := VisitFrom(decode, Always(), s, offset, []);
            VisitFrom(decode, Always(), s, offset, seen) == Visited(seen + r.entries, r.offset)
    decreases |s|
  {
    if HasLine(s) {
      var next, tail := offset + |FirstLine(s)| + 1, AfterLine(s);
      match EntryOf(decode, FirstLine(s)) {
        case None =>
          SeenFirst(decode, tail, next, seen);
        case Some(e) =>
          SeenFirst(decode, tail, next, [e]);
          SeenFirst(decode, tail, next, seen + [e]);
          assert [] + [e] == [e];
          var r := VisitFrom(decode, Always(), tail, next, []);
          assert (seen + [e]) + r.entries == seen + ([e] + r.entries);
      }
    }
  }

  // The entries of the lines that are not over 1 MiB with their newline and that decode.
  function Decoded<E>(decode: Decoder<E>, lines: seq<Bytes>): seq<E> {
    if lines == [] then [] else
      (if |lines[0]| < 1048576 && decode(lines[0]).Some? then [decode(lines[0]).value] else [])
      + Decoded(decode, lines[1..])
  }

  // A visitor that never stops visits exactly those of the complete lines, in order, up to the unfinished one.
  lemma {:induction false} VisitsAll<E>(decode: Decoder<E>, s: Bytes, offset: int)
    ensures VisitFrom(decode, Always(), s, offset, [])
         == Visited(Decoded(decode, Lines(s)), offset + |s| - |Rest(s)|)
    decreases |s|
  {
    if HasLine(s) {
      var line, tail := FirstLine(s), AfterLine(s);
      VisitsAll(decode, tail, offset + |line| + 1);
      assert Lines(s)[1..] == Lines(tail);
      if EntryOf(decode, line).Some? {
        SeenFirst(decode, tail, offset + |line| + 1, [EntryOf(decode, line).value]);
        assert [] + [EntryOf(decode, line).value] == [EntryOf(decode, line).value];
      }
    }
  }

  // Where a visit stops: after the first entry the visitor refuses, or at the end.
  lemma {:induction false} VisitStops<E>(decode: Decoder<E>, visitor: Visitor<E>, s: Bytes, offset: int, seen: seq<E>)
    ensures var r := VisitFrom(decode, visitor, s, offset, seen);
            && |seen| <= |r.entries| && r.entries[..|seen|] == seen
            && (forall n :: |seen| < n < |r.entries| ==> visitor(r.entries[..n]))
            && (r == VisitFrom(decode, Always(), s, offset, seen) || (|seen| < |r.entries| && !visitor(r.entries)))
    decreases |s|
  {
    if HasLine(s) {
      var next, tail := offset + |FirstLine(s)| + 1, AfterLine(s);
      match EntryOf(decode, FirstLine(s)) {
        case None =>
          VisitStops(decode, visitor, tail, next, seen);
        case Some(e) =>
          if visitor(seen + [e]) {
            VisitStops(decode, visitor, tail, next, seen + [e]);
            var r := VisitFrom(decode, visitor, tail, next, seen + [e]);
            assert r.entries[..|seen|] == r.entries[..|seen| + 1][..|seen|];
          }
      }
    }
  }

  // What a visit leaves unvisited.
  function Unvisited<E>(decode: Decoder<E>, visitor: Visitor<E>, s: Bytes, seen: seq<E>): (rest: Bytes)
    ensures |rest| <= |s|
    decreases |s|
  {
    if !HasLine(s) then s else
      match EntryOf(decode, FirstLine(s))
      case None => Unvisited(decode, visitor, AfterLine(s), seen)
      case Some(e) =>
        if visitor(seen + [e]) then Unvisited(decode, visitor, AfterLine(s), seen + [e]) else AfterLine(s)
  }

  lemma {:induction false} UnvisitedIsTail<E>(decode: Decoder<E>, visitor: Visitor<E>, s: Bytes, offset: int,
                                              seen: seq<E>)
    ensures var rest := Unvisited(decode, visitor, s, seen);
            && VisitFrom(decode, visitor, s, offset, seen).offset == offset + |s| - |rest|
            && s[|s| - |rest|..] == rest
    decreases |s|
  {
    if HasLine(s) {
      var next, tail := offset + |FirstLine(s)| + 1, AfterLine(s);
      SplitLine(s);
      match EntryOf(decode, FirstLine(s)) {
        case None => UnvisitedIsTail(decode, visitor, tail, next, seen);
        case Some(e) =>
          if visitor(seen + [e]) {
            UnvisitedIsTail(decode, visitor, tail, next, seen + [e]);
          }
      }
    }
  }

  lemma {:induction false} VisitSplits<E>(decode: Decoder<E>, visitor: Visitor<E>, s: Bytes, offset: int, seen: seq<E>)
    ensures var r := VisitFrom(decode, visitor, s, offset, seen);
            var rest := VisitFrom(decode, Always(), Unvisited(decode, visitor, s, seen), r.offset, []);
            VisitFrom(decode, Always(), s, offset, seen) == Visited(r.entries + rest.entries, rest.offset)
    decreases |s|
  {
    if HasLine(s) {
      var next, tail := offset + |FirstLine(s)| + 1, AfterLine(s);
      match EntryOf(decode, FirstLine(s)) {
        case None => VisitSplits(decode, visitor, tail, next, seen);
        case Some(e) =>
          if visitor(seen + [e]) {
            VisitSplits(decode, visitor, tail, next, seen + [e]);
          } else {
            SeenFirst(decode, tail, next, seen + [e]);
          }
      }
    }
  }

  // A visit stopped at any entry and resumed from its offset by a visitor that goes on visits, together,
  // exactly what one pass visits, and ends at the same offset.
  lemma VisitResumes<E>(file: Bytes, offset: nat, decode: Decoder<E>, visitor: Visitor<E>)
    requires offset <= |file|
    ensures var first := VisitFrom(decode, visitor, From(file, offset), offset, []);
            && offset <= first.offset <= |file|
            && var second := VisitFrom(decode, Always(), From(file, first.offset), first.offset, []);
               VisitFrom(decode, Always(), From(file, offset), offset, [])
               == Visited(first.entries + second.entries, second.offset)
  {
    var data := From(file, offset);
    FromSlice(file, offset);
    VisitSplits(decode, visitor, data, offset, []);
    UnvisitedIsTail(decode, visitor, data, offset, []);
    var rest := Unvisited(decode, visitor, data, []);
    assert file == file[..|file| - |rest|] + rest;
    FromIs(file[..|file| - |rest|], rest);
  }
}
