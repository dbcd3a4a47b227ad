/**
 Recovering a working directory from a Claude project directory name.

 Encoding replaces "/" by "-" and so loses which hyphens were slashes.  Decoding builds candidate
 paths part by part, drops those whose parent is not there, and returns the first one that exists.
 What exists is an oracle.
 */
module PathSearch {
  import opened Wrappers
  import opened Collections

  // Whether os.Stat finds a path.
  type Oracle = string -> bool

  const MAX_CANDIDATES: nat := 4096

  /******* Encoding *******/

  // Of a path that is already clean.
  function EncodePath(path: string): (e: string)
    ensures |e| == |path|
  {
    seq(|path|, i requires 0 <= i < |path| => if path[i] == '/' then '-' else path[i])
  }

  // `q` starts with a slash and may have a slash wherever `e` has a hyphen, and else is `e`.
  ghost predicate ReadsAs(q: string, e: string) {
    && |q| == |e| > 0 && q[0] == '/' && e[0] == '-'
    && forall i :: 0 < i < |q| ==> q[i] == e[i] || (q[i] == '/' && e[i] == '-')
  }

  // The absolute paths with a given encoding.
  lemma ReadsAsIsEncoding(q: string, e: string)
    requires '/' !in e
    ensures ReadsAs(q, e) <==> q != "" && q[0] == '/' && EncodePath(q) == e
  {
    if ReadsAs(q, e) {
      assert forall i :: 0 <= i < |q| ==> EncodePath(q)[i] == e[i];
    }
    if q != "" && q[0] == '/' && EncodePath(q) == e {
      assert forall i :: 0 <= i < |q| ==> EncodePath(q)[i] == e[i];
    }
  }

  /******* Parts *******/

  // The pieces between hyphens, as strings.Split returns them: at least one, possibly empty.
  function SplitHyphens(s: string): (parts: seq<string>)
    ensures parts != []
  {
    if s == "" then [""] else NextPart(SplitHyphens(s[..|s| - 1]), s[|s| - 1])
  }

  // A hyphen starts a part; anything else goes to the last one.
  function NextPart(parts: seq<string>, c: char): seq<string>
    requires parts != []
  {
    if c == '-' then parts + [""] else parts[..|parts| - 1] + [parts[|parts| - 1] + [c]]
  }

  // A hyphen before each part.
  function Encoded(parts: seq<string>): string {
    if parts == [] then "" else Encoded(parts[..|parts| - 1]) + "-" + parts[|parts| - 1]
  }

  lemma Regroup(a: string, b: string, c: string, d: string)
    ensures a + b + (c + d) == (a + b + c) + d
  {
  }

  lemma EncodedPush(before: seq<string>, part: string)
    ensures Encoded(before + [part]) == Encoded(before) + "-" + part
  {
    assert (before + [part])[..|before|] == before;
  }

  lemma EncodedNext(parts: seq<string>, c: char)
    requires parts != []
    ensures Encoded(NextPart(parts, c)) == Encoded(parts) + [c]
  {
    if c == '-' {
      EncodedPush(parts, "");
    } else {
      var init, last := parts[..|parts| - 1], parts[|parts| - 1];
      assert parts == init + [last];
      EncodedPush(init, last);
      EncodedPush(init, last + [c]);
      Regroup(Encoded(init), "-", last, [c]);
    }
  }

  lemma {:induction false} EncodedSplit(s: string)
    ensures Encoded(SplitHyphens(s)) == "-" + s
  {
    if s == "" {
      EncodedPush([], "");
    } else {
      var t, c := s[..|s| - 1], s[|s| - 1];
      EncodedSplit(t);
      EncodedNext(SplitHyphens(t), c);
      assert t + [c] == s;
    }
  }

  ghost predicate NoHyphens(parts: seq<string>) {
    forall k :: 0 <= k < |parts| ==> '-' !in parts[k]
  }

  lemma {:induction false} SplitHasNoHyphens(s: string)
    ensures NoHyphens(SplitHyphens(s))
  {
    if s != "" {
      SplitHasNoHyphens(s[..|s| - 1]);
    }
  }

  function Hyphens(s: string): (n: nat)
    ensures n <= |s|
  {
    if s == "" then 0 else Hyphens(s[..|s| - 1]) + (if s[|s| - 1] == '-' then 1 else 0)
  }

  lemma {:induction false} PartsAreHyphens(s: string)
    ensures |SplitHyphens(s)| == Hyphens(s) + 1
  {
    if s != "" {
      PartsAreHyphens(s[..|s| - 1]);
    }
  }

  /******* The search *******/

  // A candidate can go on with a slash if it exists, and always with a hyphen.
  function Extend(stat: Oracle, path: string, part: string): seq<string> {
    (if stat(path) then [path + "/" + part] else []) + [path + "-" + part]
  }

  function ExtendAll(stat: Oracle, paths: seq<string>, part: string): seq<string> {
    if paths == [] then [] else
      ExtendAll(stat, paths[..|paths| - 1], part) + Extend(stat, paths[|paths| - 1], part)
  }

  // The candidates after all of `parts`.
  function Level(stat: Oracle, parts: seq<string>): seq<string> {
    if parts == [] then [] else
      var n := |parts| - 1;
      if n == 0 then ["/" + parts[0]] else ExtendAll(stat, Level(stat, parts[..n]), parts[n])
  }

  // Some step of the search has more candidates than allowed.
  predicate Overflows(stat: Oracle, parts: seq<string>) {
    |parts| > 1 && (Overflows(stat, parts[..|parts| - 1]) || |Level(stat, parts)| > MAX_CANDIDATES)
  }

  function FirstExisting(stat: Oracle, paths: seq<string>): string {
    if paths == [] then ""
    else if stat(paths[0]) then paths[0]
    else FirstExisting(stat, paths[1..])
  }

  function TryPaths(stat: Oracle, parts: seq<string>): string {
    if Overflows(stat, parts) then "" else FirstExisting(stat, Level(stat, parts))
  }

  /******* Order of candidates *******/

  // At the first difference `a` has the slash.
  ghost predicate Earlier(a: string, b: string) {
    exists k :: EarlierAt(a, b, k)
  }

  predicate EarlierAt(a: string, b: string, k: int) {
    0 <= k < |a| && k < |b| && a[..k] == b[..k] && a[k] == '/' && b[k] == '-'
  }

  ghost predicate InOrder(paths: seq<string>) {
    forall i, j :: 0 <= i < j < |paths| ==> Earlier(paths[i], paths[j])
  }

  lemma EarlierExtends(a: string, b: string, x: string, y: string)
    requires Earlier(a, b)
    ensures Earlier(a + x, b + y)
  {
    var k :| EarlierAt(a, b, k);
    assert (a + x)[..k] == a[..k] && (b + y)[..k] == b[..k];
    assert EarlierAt(a + x, b + y, k);
  }

  lemma SlashIsEarlier(s: string, part: string)
    ensures Earlier(s + "/" + part, s + "-" + part)
  {
    var a, b := s + "/" + part, s + "-" + part;
    assert a[..|s|] == s == b[..|s|];
    assert EarlierAt(a, b, |s|);
  }

  lemma EarlierIsNotSame(a: string, b: string)
    requires Earlier(a, b)
    ensures a != b && !Earlier(b, a)
  {
    var k :| EarlierAt(a, b, k);
    forall m ensures !EarlierAt(b, a, m) {
      if 0 <= m < k {
        assert a[..k][m] == b[..k][m];
      } else if k < m < |a| && m < |b| {
        assert a[..m][k] == '/' && b[..m][k] == '-';
      }
    }
  }

  // What the extensions of `paths` look like.
  lemma {:induction false} ExtensionsComeFrom(stat: Oracle, paths: seq<string>, part: string, q: string)
    ensures q in ExtendAll(stat, paths, part) <==>
            exists p :: p in paths && IsExtension(stat, p, part, q)
  {
    if paths != [] {
      var n := |paths| - 1;
      ExtensionsComeFrom(stat, paths[..n], part, q);
      assert paths == paths[..n] + [paths[n]];
      assert q in Extend(stat, paths[n], part) <==> IsExtension(stat, paths[n], part, q);
    }
  }

  predicate IsExtension(stat: Oracle, p: string, part: string, q: string) {
    q == p + "-" + part || (stat(p) && q == p + "/" + part)
  }

  lemma {:induction false} ExtendAllInOrder(stat: Oracle, paths: seq<string>, part: string)
    requires InOrder(paths)
    ensures InOrder(ExtendAll(stat, paths, part))
  {
    if paths != [] {
      var n := |paths| - 1;
      var before, last := ExtendAll(stat, paths[..n], part), Extend(stat, paths[n], part);
      ExtendAllInOrder(stat, paths[..n], part);
      SlashIsEarlier(paths[n], part);
      forall i, k | 0 <= i < |before| && 0 <= k < |last| ensures Earlier(before[i], last[k]) {
        ExtensionsComeFrom(stat, paths[..n], part, before[i]);
        var p :| p in paths[..n] && IsExtension(stat, p, part, before[i]);
        ExtensionEarlier(stat, p, paths[n], part, before[i], last[k]);
      }
    }
  }

  lemma ExtensionEarlier(stat: Oracle, p: string, p': string, part: string, q: string, q': string)
    requires Earlier(p, p') && IsExtension(stat, p, part, q) && IsExtension(stat, p', part, q')
    ensures Earlier(q, q')
  {
    var x := if q == p + "-" + part then "-" + part else "/" + part;
    var y := if q' == p' + "-" + part then "-" + part else "/" + part;
    EarlierExtends(p, p', x, y);
    assert q == p + x && q' == p' + y;
  }

  // Candidates are all different, so none is ever dropped as a duplicate.
  lemma {:induction false} LevelInOrder(stat: Oracle, parts: seq<string>)
    ensures InOrder(Level(stat, parts))
  {
    if |parts| > 1 {
      var n := |parts| - 1;
      LevelInOrder(stat, parts[..n]);
      ExtendAllInOrder(stat, Level(stat, parts[..n]), parts[n]);
    }
  }

  /******* Soundness and completeness *******/

  lemma ReadsAsExtends(p: string, e: string, sep: char, part: string)
    requires ReadsAs(p, e) && sep in {'/', '-'}
    ensures ReadsAs(p + [sep] + part, e + "-" + part)
  {
    var q, f := p + [sep] + part, e + "-" + part;
    assert forall i :: 0 < i < |q| && i < |p| ==> q[i] == p[i] && f[i] == e[i];
  }

  ghost predicate AncestorsExist(stat: Oracle, q: string) {
    forall i :: 0 < i < |q| && q[i] == '/' ==> stat(q[..i])
  }

  // What exists lies in a directory that exists.
  ghost predicate AncestorClosed(stat: Oracle) {
    forall q :: stat(q) ==> AncestorsExist(stat, q)
  }

  // A path that reads as `e + "-" + part` is one that reads as `e`, a choice, and the part.
  lemma ReadsAsSplits(q: string, e: string, part: string) returns (p: string, sep: char)
    requires ReadsAs(q, e + "-" + part) && e != "" && '-' !in part
    ensures q == p + [sep] + part && sep in {'/', '-'} && ReadsAs(p, e)
  {
    var f, m := e + "-" + part, |e|;
    p, sep := q[..m], q[m];
    assert forall i :: 0 <= i < m ==> f[i] == e[i];
    assert f[m] == '-';
    var t := p + [sep] + part;
    forall i | 0 <= i < |q| ensures t[i] == q[i] {
      if i > m {
        assert f[i] == part[i - m - 1] == t[i];
      }
    }
    assert t == q;
  }

  lemma FirstPartRead(q: string, part: string)
    requires ReadsAs(q, "-" + part) && '-' !in part
    ensures q == "/" + part
  {
    assert forall i :: 0 < i < |q| ==> ("-" + part)[i] == part[i - 1];
  }

  // `q` reads as `e` and lies behind existing paths wherever a hyphen was read as a slash.
  ghost predicate Reachable(stat: Oracle, q: string, e: string) {
    && ReadsAs(q, e)
    && forall i :: 0 < i < |q| && q[i] == '/' && e[i] == '-' ==> stat(q[..i])
  }

  lemma ReachableSplits(stat: Oracle, p: string, e: string, sep: char, part: string)
    requires ReadsAs(p, e) && sep in {'/', '-'} && '-' !in part
    ensures Reachable(stat, p + [sep] + part, e + "-" + part) <==> Reachable(stat, p, e) && (sep == '/' ==> stat(p))
  {
    var q, f, m := p + [sep] + part, e + "-" + part, |p|;
    ReadsAsExtends(p, e, sep, part);
    assert forall i :: 0 <= i < m ==> q[i] == p[i] && f[i] == e[i] && q[..i] == p[..i];
    assert q[m] == sep && f[m] == '-' && q[..m] == p;
    assert forall i :: m < i < |q| ==> f[i] == part[i - m - 1];
  }

  lemma FirstLevel(stat: Oracle, parts: seq<string>, q: string)
    requires |parts| == 1 && NoHyphens(parts)
    ensures q in Level(stat, parts) <==> Reachable(stat, q, Encoded(parts))
  {
    assert Encoded(parts[..0]) == "";
    assert Encoded(parts) == "-" + parts[0];
    assert forall i :: 0 < i < |Encoded(parts)| ==> Encoded(parts)[i] == parts[0][i - 1];
    if ReadsAs(q, Encoded(parts)) {
      FirstPartRead(q, parts[0]);
    }
  }

  lemma ReachableIsExtension(stat: Oracle, q: string, e: string, part: string)
    requires e != "" && '-' !in part
    ensures Reachable(stat, q, e + "-" + part) <==> exists p :: Reachable(stat, p, e) && IsExtension(stat, p, part, q)
  {
    if Reachable(stat, q, e + "-" + part) {
      var p, sep := ReadsAsSplits(q, e, part);
      ReachableSplits(stat, p, e, sep, part);
      assert Reachable(stat, p, e) && IsExtension(stat, p, part, q);
    }
    forall p | Reachable(stat, p, e) && IsExtension(stat, p, part, q) ensures Reachable(stat, q, e + "-" + part) {
      ReachableSplits(stat, p, e, if q == p + "-" + part then '-' else '/', part);
    }
  }

  // The candidates are exactly the reachable paths.
  lemma {:induction false} LevelIs(stat: Oracle, parts: seq<string>, q: string)
    requires parts != [] && NoHyphens(parts)
    ensures q in Level(stat, parts) <==> Reachable(stat, q, Encoded(parts))
  {
    var n := |parts| - 1;
    if n == 0 {
      FirstLevel(stat, parts, q);
    } else {
      var before := parts[..n];
      forall p ensures p in Level(stat, before) <==> Reachable(stat, p, Encoded(before)) {
        LevelIs(stat, before, p);
      }
      ExtensionsComeFrom(stat, Level(stat, before), parts[n], q);
      assert Encoded(before) == Encoded(before[..n - 1]) + "-" + before[n - 1];
      ReachableIsExtension(stat, q, Encoded(before), parts[n]);
    }
  }

  /******* How many candidates *******/

  function Power2(n: nat): nat {
    if n == 0 then 1 else 2 * Power2(n - 1)
  }

  lemma {:induction false} ExtendAllSize(stat: Oracle, paths: seq<string>, part: string)
    ensures |paths| <= |ExtendAll(stat, paths, part)| <= 2 * |paths|
    ensures (forall p :: p in paths ==> stat(p)) ==> |ExtendAll(stat, paths, part)| == 2 * |paths|
  {
    if paths != [] {
      ExtendAllSize(stat, paths[..|paths| - 1], part);
    }
  }

  lemma {:induction false} LevelSize(stat: Oracle, parts: seq<string>)
    requires parts != []
    ensures 1 <= |Level(stat, parts)| <= Power2(|parts| - 1)
  {
    if |parts| > 1 {
      var n := |parts| - 1;
      LevelSize(stat, parts[..n]);
      ExtendAllSize(stat, Level(stat, parts[..n]), parts[n]);
    }
  }

  lemma {:induction false} Power2Grows(m: nat, n: nat)
    requires m <= n
    ensures Power2(m) <= Power2(n)
  {
    if m < n {
      Power2Grows(m, n - 1);
    }
  }

  lemma Power2Is()
    ensures Power2(12) == 4096 && Power2(13) == 8192
  {
    assert Power2(4) == 16;
    assert Power2(8) == 256;
    assert Power2(12) == 4096;
  }

  // Up to 13 parts the search never has to give up.
  lemma {:induction false} ThirteenPartsFit(stat: Oracle, parts: seq<string>)
    requires |parts| <= 13
    ensures !Overflows(stat, parts)
  {
    if |parts| > 1 {
      ThirteenPartsFit(stat, parts[..|parts| - 1]);
      LevelSize(stat, parts);
      Power2Grows(|parts| - 1, 12);
      Power2Is();
    }
  }

  // More paths than the limit are reachable.
  ghost predicate TooMany(stat: Oracle, e: string) {
    exists qs :: |qs| > MAX_CANDIDATES && AllReachable(stat, qs, e)
  }

  ghost predicate AllReachable(stat: Oracle, qs: set<string>, e: string) {
    forall q :: q in qs ==> Reachable(stat, q, e)
  }

  lemma {:induction false} SizeOfDistinct(paths: seq<string>)
    requires forall i, j :: 0 <= i < j < |paths| ==> paths[i] != paths[j]
    ensures |set p | p in paths| == |paths|
  {
    if paths != [] {
      var n := |paths| - 1;
      SizeOfDistinct(paths[..n]);
      assert (set p | p in paths) == (set p | p in paths[..n]) + {paths[n]};
    }
  }

  lemma LevelTooLong(stat: Oracle, parts: seq<string>)
    requires parts != [] && NoHyphens(parts)
    ensures |Level(stat, parts)| > MAX_CANDIDATES <==> TooMany(stat, Encoded(parts))
  {
    var paths := Level(stat, parts);
    var all := set p | p in paths;
    LevelInOrder(stat, parts);
    forall i, j | 0 <= i < j < |paths| ensures paths[i] != paths[j] {
      EarlierIsNotSame(paths[i], paths[j]);
    }
    SizeOfDistinct(paths);
    forall q ensures q in all <==> Reachable(stat, q, Encoded(parts)) {
      LevelIs(stat, parts, q);
    }
    assert AllReachable(stat, all, Encoded(parts));
    if TooMany(stat, Encoded(parts)) {
      var qs :| |qs| > MAX_CANDIDATES && AllReachable(stat, qs, Encoded(parts));
      SubsetIsSmaller(qs, all);
    }
  }

  ghost predicate TooManyAt(stat: Oracle, parts: seq<string>, n: int) {
    0 < n <= |parts| && TooMany(stat, Encoded(parts[..n]))
  }

  lemma TooManyInit(stat: Oracle, parts: seq<string>, n: int)
    requires parts != [] && n < |parts|
    ensures TooManyAt(stat, parts[..|parts| - 1], n) <==> TooManyAt(stat, parts, n)
  {
    if 0 < n {
      assert parts[..|parts| - 1][..n] == parts[..n];
    }
  }

  // The search gives up exactly when, for some number of first parts, more than 4096 paths are reachable.
  lemma {:induction false} OverflowsIff(stat: Oracle, parts: seq<string>)
    requires parts != [] && NoHyphens(parts)
    ensures Overflows(stat, parts) <==> exists n :: TooManyAt(stat, parts, n)
  {
    var last := |parts| - 1;
    LevelTooLong(stat, parts);
    assert parts[..|parts|] == parts;
    assert TooManyAt(stat, parts, |parts|) <==> |Level(stat, parts)| > MAX_CANDIDATES;
    if last > 0 {
      OverflowsIff(stat, parts[..last]);
    }
    forall n | n < |parts| ensures TooManyAt(stat, parts[..last], n) <==> TooManyAt(stat, parts, n) {
      TooManyInit(stat, parts, n);
    }
  }

  lemma {:induction false} OverflowStays(stat: Oracle, parts: seq<string>, n: nat)
    requires n <= |parts| && Overflows(stat, parts[..n])
    ensures Overflows(stat, parts)
  {
    if n == |parts| {
      assert parts[..n] == parts;
    } else {
      assert parts[..|parts| - 1][..n] == parts[..n];
      OverflowStays(stat, parts[..|parts| - 1], n);
    }
  }

  ghost predicate AllReadingsExist(stat: Oracle, e: string) {
    forall q :: ReadsAs(q, e) ==> stat(q)
  }

  ghost predicate AllExistAt(stat: Oracle, parts: seq<string>, n: int) {
    0 < n < |parts| ==> AllReadingsExist(stat, Encoded(parts[..n]))
  }

  // Every reading of fewer parts exists.
  ghost predicate AllExistBefore(stat: Oracle, parts: seq<string>) {
    forall n :: AllExistAt(stat, parts, n)
  }

  lemma BeforeInit(stat: Oracle, parts: seq<string>)
    requires |parts| > 1 && AllExistBefore(stat, parts)
    ensures AllExistBefore(stat, parts[..|parts| - 1])
    ensures AllReadingsExist(stat, Encoded(parts[..|parts| - 1]))
  {
    var last := |parts| - 1;
    assert AllExistAt(stat, parts, last);
    forall n ensures AllExistAt(stat, parts[..last], n) {
      assert AllExistAt(stat, parts, n);
      if 0 < n < last {
        assert parts[..last][..n] == parts[..n];
      }
    }
  }

  // Then each part doubles the candidates.
  lemma {:induction false} LevelDoubles(stat: Oracle, parts: seq<string>)
    requires parts != [] && NoHyphens(parts) && AllExistBefore(stat, parts)
    ensures |Level(stat, parts)| == Power2(|parts| - 1)
  {
    if |parts| > 1 {
      var n := |parts| - 1;
      BeforeInit(stat, parts);
      LevelDoubles(stat, parts[..n]);
      forall p | p in Level(stat, parts[..n]) ensures stat(p) {
        LevelIs(stat, parts[..n], p);
      }
      ExtendAllSize(stat, Level(stat, parts[..n]), parts[n]);
    }
  }

  // From 14 parts on it may have to: where every reading of up to 13 first parts exists, nothing is found.
  lemma FourteenPartsOverflow(stat: Oracle, parts: seq<string>)
    requires |parts| >= 14 && NoHyphens(parts) && AllExistBefore(stat, parts[..14])
    ensures Overflows(stat, parts) && TryPaths(stat, parts) == ""
  {
    LevelDoubles(stat, parts[..14]);
    Power2Is();
    OverflowStays(stat, parts, 14);
  }

  /******* The result *******/

  lemma {:induction false} FirstExistingIs(stat: Oracle, paths: seq<string>)
    requires InOrder(paths) && forall p :: p in paths ==> p != ""
    ensures var r := FirstExisting(stat, paths);
            && (r != "" ==> r in paths && stat(r))
            && (forall p :: p in paths && stat(p) ==> r != "" && (r == p || Earlier(r, p)))
    decreases paths
  {
    if paths != [] {
      assert paths == [paths[0]] + paths[1..];
      if stat(paths[0]) {
        forall p | p in paths ensures p == paths[0] || Earlier(paths[0], p) {
          var i :| 0 <= i < |paths| && paths[i] == p;
        }
      } else {
        var rest := paths[1..];
        forall i, j | 0 <= i < j < |rest| ensures Earlier(rest[i], rest[j]) {
          assert rest[i] == paths[i + 1] && rest[j] == paths[j + 1];
        }
        FirstExistingIs(stat, paths[1..]);
      }
    }
  }

  // A path the search returns exists and has the encoding it was given; and where directories of what exists
  // exist, the search returns the first existing path with that encoding, a slash coming before a hyphen.
  lemma TryPathsFindsFirst(stat: Oracle, parts: seq<string>)
    requires parts != [] && NoHyphens(parts)
    ensures var r, e := TryPaths(stat, parts), Encoded(parts);
            && (r != "" ==> stat(r) && ReadsAs(r, e))
            && (!Overflows(stat, parts) ==>
                  forall q :: ReadsAs(q, e) && stat(q) && AncestorsExist(stat, q) ==>
                    r != "" && (r == q || Earlier(r, q)))
  {
    var paths := Level(stat, parts);
    LevelInOrder(stat, parts);
    forall q ensures q in paths <==> Reachable(stat, q, Encoded(parts)) {
      LevelIs(stat, parts, q);
    }
    FirstExistingIs(stat, paths);
    forall q | ReadsAs(q, Encoded(parts)) && AncestorsExist(stat, q) ensures Reachable(stat, q, Encoded(parts)) {
    }
  }

  /******* The search as a loop *******/

  // A path under construction: its components.
  type PathState = seq<string>

  function Slashes(components: PathState): string {
    if components == [] then "" else Slashes(components[..|components| - 1]) + "/" + components[|components| - 1]
  }

  function WithHyphen(c: PathState, part: string): PathState
    requires c != []
  {
    c[..|c| - 1] + [c[|c| - 1] + "-" + part]
  }

  lemma SlashesPush(c: PathState, part: string)
    ensures (c + [part])[..|c|] == c && Slashes(c + [part]) == Slashes(c) + "/" + part
  {
  }

  lemma HyphenPath(init: PathState, last: string, part: string)
    ensures Slashes(init + [last + "-" + part]) == Slashes(init + [last]) + "-" + part
  {
    SlashesPush(init, last);
    SlashesPush(init, last + "-" + part);
    Regroup5(Slashes(init), "/", last, "-", part);
  }

  lemma Regroup5(a: string, b: string, c: string, d: string, e: string)
    ensures a + b + (c + d + e) == (a + b + c) + d + e
  {
  }

  lemma StatePath(c: PathState, part: string)
    requires c != []
    ensures Slashes(WithHyphen(c, part)) == Slashes(c) + "-" + part
  {
    var init, last := c[..|c| - 1], c[|c| - 1];
    assert init + [last] == c;
    HyphenPath(init, last, part);
  }

  // Answers already asked for.
  type Cache = map<string, bool>

  ghost predicate Agrees(cache: Cache, stat: Oracle) {
    forall p :: p in cache ==> cache[p] == stat(p)
  }

  predicate ParentThere(stat: Oracle, c: PathState) {
    |c| <= 1 || stat(Slashes(c[..|c| - 1]))
  }

  function Paths(cs: seq<PathState>): (ps: seq<string>)
    ensures |ps| == |cs|
  {
    seq(|cs|, i requires 0 <= i < |cs| => Slashes(cs[i]))
  }

  ghost predicate Live(stat: Oracle, cs: seq<PathState>) {
    forall c :: c in cs ==> c != [] && ParentThere(stat, c)
  }

  method ParentExists(stat: Oracle, c: PathState, cache: Cache) returns (there: bool, cache': Cache)
    requires Agrees(cache, stat)
    ensures there == ParentThere(stat, c) && Agrees(cache', stat)
  {
    if |c| <= 1 {
      return true, cache;
    }
    var parent := Slashes(c[..|c| - 1]);
    if parent in cache {
      return cache[parent], cache;
    }
    there := stat(parent);
    cache' := cache[parent := there];
  }

  // Both ways to go on from a live candidate, and which of them is live.
  lemma SlashLive(stat: Oracle, c: PathState, part: string)
    requires c != []
    ensures ParentThere(stat, c + [part]) == stat(Slashes(c))
  {
    SlashesPush(c, part);
  }

  lemma HyphenLive(stat: Oracle, c: PathState, part: string)
    requires c != [] && ParentThere(stat, c)
    ensures ParentThere(stat, WithHyphen(c, part))
  {
    assert WithHyphen(c, part)[..|c| - 1] == c[..|c| - 1];
  }

  method AddIfLive(stat: Oracle, c: PathState, next: seq<PathState>, seen: set<string>, cache: Cache)
    returns (next': seq<PathState>, seen': set<string>, cache': Cache)
    requires Agrees(cache, stat)
    ensures Agrees(cache', stat)
    ensures var add := ParentThere(stat, c) && Slashes(c) !in seen;
            && next' == (if add then next + [c] else next)
            && seen' == (if add then seen + {Slashes(c)} else seen)
  {
    next', seen' := next, seen;
    var there;
    there, cache' := ParentExists(stat, c, cache);
    if !there {
      return;
    }
    var p := Slashes(c);
    if p !in seen {
      next', seen' := next + [c], seen + {p};
    }
  }

  ghost predicate SeenIs(seen: set<string>, paths: seq<string>) {
    forall p :: p in seen <==> p in paths
  }

  lemma {:induction false} ExtendAllGrows(stat: Oracle, paths: seq<string>, i: nat, part: string)
    requires i <= |paths|
    ensures |ExtendAll(stat, paths[..i], part)| <= |ExtendAll(stat, paths, part)|
  {
    if i == |paths| {
      assert paths[..i] == paths;
    } else {
      assert paths[..|paths| - 1][..i] == paths[..i];
      ExtendAllGrows(stat, paths[..|paths| - 1], i, part);
    }
  }

  // Neither extension of the next candidate has been seen, nor are the two the same.
  lemma ExtensionsAreNew(stat: Oracle, paths: seq<string>, i: nat, part: string)
    requires InOrder(paths) && i < |paths|
    ensures var before := ExtendAll(stat, paths[..i], part);
            && ExtendAll(stat, paths[..i + 1], part) == before + Extend(stat, paths[i], part)
            && paths[i] + "-" + part !in before
            && (stat(paths[i]) ==> paths[i] + "/" + part !in before && paths[i] + "/" + part != paths[i] + "-" + part)
  {
    var before, here := ExtendAll(stat, paths[..i], part), Extend(stat, paths[i], part);
    assert paths[..i + 1][..i] == paths[..i];
    ExtendAllInOrder(stat, paths[..i + 1], part);
    forall j, k | 0 <= j < |before| && 0 <= k < |here| ensures before[j] != here[k] {
      var all := before + here;
      assert Earlier(all[j], all[|before| + k]);
      EarlierIsNotSame(all[j], all[|before| + k]);
    }
    assert paths[i] + "-" + part == here[|here| - 1];
    if stat(paths[i]) {
      assert paths[i] + "/" + part == here[0];
      SlashIsEarlier(paths[i], part);
      EarlierIsNotSame(paths[i] + "/" + part, paths[i] + "-" + part);
    }
  }

  // Adds a candidate not seen before, if it is live.
  method AddNew(stat: Oracle, c: PathState, next: seq<PathState>, seen: set<string>, cache: Cache)
    returns (next': seq<PathState>, seen': set<string>, cache': Cache)
    requires Agrees(cache, stat) && Live(stat, next) && SeenIs(seen, Paths(next))
    requires c != [] && (ParentThere(stat, c) ==> Slashes(c) !in Paths(next))
    ensures Agrees(cache', stat) && Live(stat, next') && SeenIs(seen', Paths(next'))
    ensures Paths(next') == Paths(next) + (if ParentThere(stat, c) then [Slashes(c)] else [])
  {
    next', seen', cache' := AddIfLive(stat, c, next, seen, cache);
    if ParentThere(stat, c) {
      assert Paths(next') == Paths(next) + [Slashes(c)];
    }
  }

  method ExtendCandidate(stat: Oracle, c: PathState, part: string, next: seq<PathState>, seen: set<string>,
                         cache: Cache)
    returns (next': seq<PathState>, seen': set<string>, cache': Cache)
    requires Agrees(cache, stat) && Live(stat, next) && SeenIs(seen, Paths(next))
    requires c != [] && ParentThere(stat, c)
    requires Slashes(c) + "-" + part !in Paths(next)
    requires stat(Slashes(c)) ==>
               Slashes(c) + "/" + part !in Paths(next) && Slashes(c) + "/" + part != Slashes(c) + "-" + part
    ensures Agrees(cache', stat) && Live(stat, next') && SeenIs(seen', Paths(next'))
    ensures Paths(next') == Paths(next) + Extend(stat, Slashes(c), part)
  {
    SlashLive(stat, c, part);
    HyphenLive(stat, c, part);
    SlashesPush(c, part);
    StatePath(c, part);
    next', seen', cache' := AddNew(stat, c + [part], next, seen, cache);
    next', seen', cache' := AddNew(stat, WithHyphen(c, part), next', seen', cache');
  }

  // One part further; None when there are too many.
  method NextCandidates(stat: Oracle, candidates: seq<PathState>, part: string, cache: Cache)
    returns (r: Option<seq<PathState>>, cache': Cache)
    requires Agrees(cache, stat) && Live(stat, candidates) && InOrder(Paths(candidates))
    ensures Agrees(cache', stat)
    ensures var paths := ExtendAll(stat, Paths(candidates), part);
            && (r.None? <==> |paths| > MAX_CANDIDATES)
            && (r.Some? ==> Live(stat, r.value) && Paths(r.value) == paths)
  {
    var next: seq<PathState>, seen: set<string> := [], {};
    cache' := cache;
    var i := 0;
    while i < |candidates|
      invariant 0 <= i <= |candidates|
      invariant Agrees(cache', stat) && Live(stat, next) && SeenIs(seen, Paths(next))
      invariant Paths(next) == ExtendAll(stat, Paths(candidates)[..i], part)
      invariant |next| <= MAX_CANDIDATES
    {
      ExtensionsAreNew(stat, Paths(candidates), i, part);
      assert candidates[i] in candidates;
      next, seen, cache' := ExtendCandidate(stat, candidates[i], part, next, seen, cache');
      i := i + 1;
      if |next| > MAX_CANDIDATES {
        ExtendAllGrows(stat, Paths(candidates), i, part);
        return None, cache';
      }
    }
    assert Paths(candidates)[..i] == Paths(candidates);
    return Some(next), cache';
  }

  method FirstThere(stat: Oracle, candidates: seq<PathState>) returns (r: string)
    ensures r == FirstExisting(stat, Paths(candidates))
  {
    var cache: Cache := map[];
    var i := 0;
    while i < |candidates|
      invariant 0 <= i <= |candidates| && Agrees(cache, stat)
      invariant FirstExisting(stat, Paths(candidates)[i..]) == FirstExisting(stat, Paths(candidates))
    {
      var p := Slashes(candidates[i]);
      assert Paths(candidates)[i..][1..] == Paths(candidates)[i + 1..];
      i := i + 1;
      if p in cache {
        if cache[p] {
          return p;
        }
        continue;
      }
      var there := stat(p);
      cache := cache[p := there];
      if there {
        return p;
      }
    }
    return "";
  }

  // The search never runs out of candidates.
  lemma CandidatesRemain(stat: Oracle, parts: seq<string>, n: nat)
    requires 0 < n <= |parts|
    ensures Level(stat, parts[..n]) != []
  {
    LevelSize(stat, parts[..n]);
  }

  lemma LevelNext(stat: Oracle, parts: seq<string>, n: nat)
    requires 0 < n < |parts|
    ensures Level(stat, parts[..n + 1]) == ExtendAll(stat, Level(stat, parts[..n]), parts[n])
    ensures Overflows(stat, parts[..n + 1])
       <==> Overflows(stat, parts[..n]) || |Level(stat, parts[..n + 1])| > MAX_CANDIDATES
  {
    assert parts[..n + 1][..n] == parts[..n] && parts[..n + 1][n] == parts[n];
  }

  method DecodeTryPaths(stat: Oracle, parts: seq<string>) returns (r: string)
    ensures r == TryPaths(stat, parts)
  {
    if |parts| == 0 {
      return "";
    }
    var parentCache: Cache := map[];
    var candidates: seq<PathState> := [[parts[0]]];
    assert Slashes([]) == "" && Slashes([parts[0]]) == "/" + parts[0];
    var idx := 1;
    while idx < |parts|
      invariant 1 <= idx <= |parts|
      invariant Agrees(parentCache, stat) && Live(stat, candidates)
      invariant Paths(candidates) == Level(stat, parts[..idx])
      invariant !Overflows(stat, parts[..idx])
    {
      LevelInOrder(stat, parts[..idx]);
      var next, cache' := NextCandidates(stat, candidates, parts[idx], parentCache);
      parentCache := cache';
      LevelNext(stat, parts, idx);
      if next.None? {
        OverflowStays(stat, parts, idx + 1);
        return "";
      }
      CandidatesRemain(stat, parts, idx + 1);
      candidates := next.value;
      idx := idx + 1;
    }
    assert parts[..idx] == parts;
    r := FirstThere(stat, candidates);
  }

  /******* Decoding a directory name *******/

  predicate IsHex(c: char) {
    '0' <= c <= '9' || 'a' <= c <= 'f' || 'A' <= c <= 'F'
  }

  function HexValue(c: char): (v: nat)
    requires IsHex(c)
    ensures v < 16
  {
    if '0' <= c <= '9' then (c - '0') as nat
    else if 'a' <= c <= 'f' then 10 + (c - 'a') as nat
    else 10 + (c - 'A') as nat
  }

  // Percent-decoding of a path segment; None for a malformed escape.
  function Unescape(s: string): Option<string> {
    if s == "" then Some("")
    else if s[0] != '%' then
      match Unescape(s[1..])
      case None => None
      case Some(t) => Some([s[0]] + t)
    else if |s| >= 3 && IsHex(s[1]) && IsHex(s[2]) then
      match Unescape(s[3..])
      case None => None
      case Some(t) => Some([(16 * HexValue(s[1]) + HexValue(s[2])) as char] + t)
    else None
  }

  lemma {:induction false} NoEscapes(s: string)
    requires '%' !in s
    ensures Unescape(s) == Some(s)
  {
    if s != "" {
      NoEscapes(s[1..]);
      assert s == [s[0]] + s[1..];
    }
  }

  const HEX_DIGITS: string := "0123456789abcdef"
  const UPPER_HEX_DIGITS: string := "0123456789ABCDEF"

  // `c` is the hexadecimal digit `d`, in either case.
  predicate IsHexDigit(c: char, d: nat) {
    d < 16 && (c == HEX_DIGITS[d] || c == UPPER_HEX_DIGITS[d])
  }

  lemma HexOf(c: char)
    requires IsHex(c)
    ensures IsHexDigit(c, HexValue(c))
  {
  }

  lemma HexOnly(c: char, d: nat)
    requires IsHexDigit(c, d)
    ensures IsHex(c) && HexValue(c) == d
  {
  }

  lemma HexIs(c: char)
    ensures IsHex(c) <==> exists d :: IsHexDigit(c, d)
    ensures IsHex(c) ==> IsHexDigit(c, HexValue(c))
    ensures forall d :: IsHexDigit(c, d) ==> IsHex(c) && HexValue(c) == d
  {
    if IsHex(c) {
      HexOf(c);
    }
    forall d | IsHexDigit(c, d) ensures IsHex(c) && HexValue(c) == d {
      HexOnly(c, d);
    }
  }

  // `e` stands for `s`: a percent sign and two hexadecimal digits for the character with that code, and any other
  // character for itself.
  ghost predicate StandsFor(e: string, s: string)
    decreases |e|
  {
    if e == "" then s == ""
    else if s == "" then false
    else if e[0] != '%' then s[0] == e[0] && StandsFor(e[1..], s[1..])
    else
      && |e| >= 3
      && (exists hi, lo :: IsHexDigit(e[1], hi) && IsHexDigit(e[2], lo) && s[0] == (16 * hi + lo) as char)
      && StandsFor(e[3..], s[1..])
  }

  lemma UnescapePlain(e: string, s: string)
    requires e != "" && e[0] != '%' && s != ""
    requires Unescape(e[1..]) == Some(s[1..]) <==> StandsFor(e[1..], s[1..])
    ensures Unescape(e) == Some(s) <==> StandsFor(e, s)
  {
    assert s == [s[0]] + s[1..];
  }

  lemma UnescapeHex(e: string, s: string)
    requires |e| >= 3 && e[0] == '%' && s != ""
    requires Unescape(e[3..]) == Some(s[1..]) <==> StandsFor(e[3..], s[1..])
    ensures Unescape(e) == Some(s) <==> StandsFor(e, s)
  {
    HexIs(e[1]);
    HexIs(e[2]);
    assert s == [s[0]] + s[1..];
  }

  // Percent-decoding finds the string a segment stands for, and fails only if it stands for none.
  lemma {:induction false} UnescapeIff(e: string, s: string)
    ensures Unescape(e) == Some(s) <==> StandsFor(e, s)
    decreases |e|
  {
    if e != "" && s != "" && e[0] != '%' {
      UnescapeIff(e[1..], s[1..]);
      UnescapePlain(e, s);
    } else if |e| >= 3 && s != "" {
      UnescapeIff(e[3..], s[1..]);
      UnescapeHex(e, s);
    }
  }

  function DecodePath(stat: Oracle, encoded: string): string {
    var decoded := match Unescape(encoded) case None => encoded case Some(d) => d;
    if decoded == "" || decoded[0] != '-' then decoded else
      var parts := SplitHyphens(decoded[1..]);
      var r := TryPaths(stat, parts);
      if r != "" then r else Slashes(parts)
  }

  method DecodeProjectPath(stat: Oracle, encoded: string) returns (path: string)
    ensures path == DecodePath(stat, encoded)
  {
    var decoded := encoded;
    var unescaped := Unescape(encoded);
    if unescaped.Some? {
      decoded := unescaped.value;
    }
    if |decoded| == 0 || decoded[0] != '-' {
      return decoded;
    }
    var parts := SplitHyphens(decoded[1..]);
    var result := DecodeTryPaths(stat, parts);
    if result != "" {
      return result;
    }
    return Slashes(parts);
  }

  function SlashFor(c: char): char {
    if c == '-' then '/' else c
  }

  function AllSlashes(s: string): (r: string)
    ensures |r| == |s|
  {
    seq(|s|, i requires 0 <= i < |s| => SlashFor(s[i]))
  }

  lemma AllSlashesPush(s: string, c: char)
    ensures AllSlashes(s + [c]) == AllSlashes(s) + [SlashFor(c)]
  {
  }

  lemma SlashesNext(parts: seq<string>, c: char)
    requires parts != []
    ensures Slashes(NextPart(parts, c)) == Slashes(parts) + [SlashFor(c)]
  {
    if c == '-' {
      SlashesPush(parts, "");
    } else {
      var init, last := parts[..|parts| - 1], parts[|parts| - 1];
      assert parts == init + [last];
      SlashesPush(init, last);
      SlashesPush(init, last + [c]);
      Regroup(Slashes(init), "/", last, [c]);
    }
  }

  lemma {:induction false} SlashesSplit(s: string)
    ensures Slashes(SplitHyphens(s)) == "/" + AllSlashes(s)
  {
    if s == "" {
      SlashesPush([], "");
    } else {
      var t, c := s[..|s| - 1], s[|s| - 1];
      SlashesSplit(t);
      SlashesNext(SplitHyphens(t), c);
      AllSlashesPush(t, c);
      assert t + [c] == s;
    }
  }

  ghost predicate Absolute(p: string) {
    p != "" && p[0] == '/' && '%' !in p
  }

  // Existing paths that would be encoded like `p`.
  ghost predicate Rival(stat: Oracle, p: string, q: string) {
    Absolute(q) && EncodePath(q) == EncodePath(p) && stat(q)
  }

  function PartsOf(p: string): seq<string>
    requires p != ""
  {
    SplitHyphens(EncodePath(p)[1..])
  }

  lemma EncodingIs(p: string)
    requires Absolute(p)
    ensures var e := EncodePath(p);
            e != "" && e[0] == '-' && '/' !in e && '%' !in e && Encoded(PartsOf(p)) == e
  {
    var e := EncodePath(p);
    assert forall i :: 0 <= i < |e| ==> e[i] != '/' && e[i] != '%';
    EncodedSplit(e[1..]);
    assert e == "-" + e[1..];
  }

  lemma AllSlashesIffNoHyphen(p: string)
    requires Absolute(p)
    ensures Slashes(PartsOf(p)) == p <==> '-' !in p
  {
    var all, e := Slashes(PartsOf(p)), EncodePath(p);
    SlashesSplit(e[1..]);
    if '-' !in p {
      forall i | 0 <= i < |p| ensures all[i] == p[i] {
        if i > 0 {
          assert all[i] == SlashFor(e[1..][i - 1]) && p[i] != '-';
        }
      }
    } else {
      var k :| 0 <= k < |p| && p[k] == '-';
      assert all[k] == SlashFor(e[1..][k - 1]) == '/';
    }
  }

  // Where directories of what exists exist, decoding the encoding of an existing path gives it back if and only if no
  // existing path with the same encoding comes earlier; of a path that does not exist, if and only if none with its
  // encoding does and it has no hyphen.  Where the search overflows, all hyphens are read as slashes.
  lemma RoundTripIff(stat: Oracle, p: string)
    requires Absolute(p) && AncestorClosed(stat)
    ensures DecodePath(stat, EncodePath(p)) == p <==>
            if Overflows(stat, PartsOf(p)) then '-' !in p
            else if stat(p) then !exists q :: Rival(stat, p, q) && Earlier(q, p)
            else '-' !in p && !exists q :: Rival(stat, p, q)
  {
    var e, parts := EncodePath(p), PartsOf(p);
    EncodingIs(p);
    NoEscapes(e);
    SplitHasNoHyphens(e[1..]);
    TryPathsFindsFirst(stat, parts);
    var r := TryPaths(stat, parts);
    if Overflows(stat, parts) {
      AllSlashesIffNoHyphen(p);
      assert r == "";
      return;
    }
    ResultIsRival(stat, p, r);
    forall q | Rival(stat, p, q) ensures r != "" && (r == q || Earlier(r, q)) {
      ReadsAsIsEncoding(q, e);
      assert AncestorsExist(stat, q);
    }
    if stat(p) {
      assert Rival(stat, p, p);
      if r != p {
        assert Rival(stat, p, r) && Earlier(r, p);
      } else {
        forall q | Rival(stat, p, q) ensures !Earlier(q, p) {
          FirstIsFirst(r, q);
        }
      }
    } else {
      AllSlashesIffNoHyphen(p);
      if r != "" {
        assert Rival(stat, p, r);
      }
    }
  }

  lemma FirstIsFirst(r: string, q: string)
    requires r == q || Earlier(r, q)
    ensures !Earlier(q, r)
  {
    if Earlier(q, r) {
      EarlierIsNotSame(q, r);
    }
  }

  lemma ResultIsRival(stat: Oracle, p: string, r: string)
    requires Absolute(p)
    requires r != "" ==> stat(r) && ReadsAs(r, EncodePath(p))
    ensures r != "" ==> Rival(stat, p, r)
  {
    if r != "" {
      EncodingIs(p);
      ReadsAsIsEncoding(r, EncodePath(p));
      assert forall i :: 0 <= i < |r| ==> EncodePath(r)[i] == EncodePath(p)[i];
    }
  }

  lemma EarlierPathWins(stat: Oracle, p: string, q: string)
    requires Absolute(p) && |p| <= 13 && AncestorClosed(stat) && stat(p) && Rival(stat, p, q) && Earlier(q, p)
    ensures DecodePath(stat, EncodePath(p)) != p
  {
    PartsAreHyphens(EncodePath(p)[1..]);
    ThirteenPartsFit(stat, PartsOf(p));
    RoundTripIff(stat, p);
  }

  // Where "/a/b" and "/a-b" both exist, the encoding of the second does not decode to it.
  lemma HyphenReadAsSlash()
    ensures var stat: Oracle := p => p in {"/a", "/a/b", "/a-b"};
            Absolute("/a-b") && AncestorClosed(stat) && stat("/a-b") && DecodePath(stat, EncodePath("/a-b")) != "/a-b"
  {
    var stat: Oracle := p => p in {"/a", "/a/b", "/a-b"};
    var p, q := "/a-b", "/a/b";
    assert q[..2] == "/a" == p[..2] && q[0] == '/' && q[1] == 'a' && q[2] == '/' && q[3] == 'b';
    assert EarlierAt(q, p, 2);
    assert EncodePath(p) == "-a-b" == EncodePath(q);
    EarlierPathWins(stat, p, q);
  }

  // In particular a path of up to 13 parts that is the only existing one with its encoding.
  lemma RoundTrip(stat: Oracle, p: string)
    requires Absolute(p) && AncestorClosed(stat) && stat(p)
    requires Hyphens(EncodePath(p)[1..]) <= 12
    requires forall q :: Rival(stat, p, q) ==> q == p
    ensures DecodePath(stat, EncodePath(p)) == p
  {
    PartsAreHyphens(EncodePath(p)[1..]);
    ThirteenPartsFit(stat, PartsOf(p));
    RoundTripIff(stat, p);
    forall q | Rival(stat, p, q) ensures !Earlier(q, p) {
      FirstIsFirst(p, q);
    }
  }
}
