/**
 Directory walking with a cache: a directory whose modification time has not changed is not read
 again.

 One call of `Discover` sees one state of the file system, calls to the system may fail, and the
 context may be found cancelled at any path.  Age limits and symbolic links are not part of the model.
 */
module FileWatch {
  import opened Wrappers
  import opened Session

  /******* The file system *******/

  datatype DirEntry = DirEntry(name: string, isDir: bool)

  datatype Info = FileInfo(mtime: Time) | DirInfo(mtime: Time, entries: seq<DirEntry>)

  // Paths for which a system call fails with something other than "does not exist", and paths at which the context
  // is found cancelled: it is looked at before each root, each directory and each entry.
  datatype Faults = Faults(lstat: set<string>, read: set<string>, info: set<string>, stop: set<string>)

  const NO_FAULTS: Faults := Faults({}, {}, {}, {})

  // What there is during one call, and which file names the patterns match.
  datatype Env = Env(nodes: map<string, Info>, faults: Faults, matches: string -> bool)

  function Join(dir: string, name: string): string {
    dir + "/" + name
  }

  // What a directory lists is there, as the kind it is listed as, under a plain name.
  ghost predicate WellFormed(nodes: map<string, Info>) {
    forall d :: d in nodes && nodes[d].DirInfo? ==>
      forall e :: e in nodes[d].entries ==>
        var p := Join(d, e.name); p in nodes && nodes[p].DirInfo? == e.isDir && '/' !in e.name
  }

  // The directory part of a path.
  function Parent(path: string): string {
    if path == "" then ""
    else if path[|path| - 1] == '/' then path[..|path| - 1]
    else Parent(path[..|path| - 1])
  }

  lemma {:induction false} ParentOfJoin(dir: string, name: string)
    requires '/' !in name
    ensures Parent(Join(dir, name)) == dir
  {
    var path := Join(dir, name);
    if name == "" {
      assert path[..|path| - 1] == dir;
    } else {
      assert path[..|path| - 1] == Join(dir, name[..|name| - 1]);
      ParentOfJoin(dir, name[..|name| - 1]);
    }
  }

  ghost function Longest(paths: set<string>): nat {
    if paths == {} then 0 else
      var p :| p in paths;
      var n := Longest(paths - {p});
      if |p| > n then |p| else n
  }

  lemma {:induction false} LongestIs(paths: set<string>, p: string)
    requires p in paths
    ensures |p| <= Longest(paths)
    decreases paths
  {
    var q :| q in paths && Longest(paths) == (var n := Longest(paths - {q}); if |q| > n then |q| else n);
    if p != q {
      LongestIs(paths - {q}, p);
    }
  }

  // How many levels there can be below a path.
  ghost function Below(env: Env, dir: string): nat {
    var n := Longest(env.nodes.Keys);
    if |dir| > n then 0 else n + 1 - |dir|
  }

  lemma BelowShrinks(env: Env, dir: string, sub: string)
    requires dir in env.nodes && |sub| > |dir|
    ensures Below(env, sub) < Below(env, dir)
  {
    LongestIs(env.nodes.Keys, dir);
  }

  /******* The walk without a cache *******/

  // How often path `p` is found below a directory, or nothing after an error.
  ghost function Fresh(env: Env, dir: string, p: string): Option<nat>
    decreases Below(env, dir), 1, 0
  {
    if dir in env.faults.stop || dir in env.faults.lstat then None
    else if dir !in env.nodes then Some(0)
    else if dir in env.faults.read || env.nodes[dir].FileInfo? then None
    else FreshEntries(env, dir, env.nodes[dir].entries, p)
  }

  function Plus(a: Option<nat>, b: Option<nat>): Option<nat> {
    if a.None? || b.None? then None else Some(a.value + b.value)
  }

  ghost function FreshEntries(env: Env, dir: string, entries: seq<DirEntry>, p: string): Option<nat>
    requires dir in env.nodes
    decreases Below(env, dir), 0, |entries|
  {
    if entries == [] then Some(0) else
      var e := entries[|entries| - 1];
      var path := Join(dir, e.name);
      var before := FreshEntries(env, dir, entries[..|entries| - 1], p);
      if e.isDir then
        BelowShrinks(env, dir, path);
        Plus(before, Fresh(env, path, p))
      else Plus(before, FreshFile(env, e.name, path, p))
  }

  function FreshFile(env: Env, name: string, path: string, p: string): Option<nat> {
    if path in env.faults.stop then None
    else Some(if IsHidden(env, name, path) || path != p then 0 else 1)
  }

  // A file that is skipped: gone, unreadable, or not matching.
  predicate IsHidden(env: Env, name: string, path: string) {
    path in env.faults.info || path !in env.nodes || !env.matches(name)
  }

  /******* The walk with a cache *******/

  datatype Entry = Entry(path: string, mtime: Time)

  datatype Snapshot = Snapshot(mtime: Time, files: seq<Entry>, subdirs: seq<string>)

  type Cache = map<string, Snapshot>

  // The cache afterwards, and the files found unless there was an error.
  datatype Walked = Walked(cache: Cache, found: Option<seq<Entry>>)

  // Cached subdirectories lie below their directory.
  ghost predicate Descends(cache: Cache) {
    forall d :: d in cache ==> AllBelow(d, cache[d].subdirs)
  }

  ghost predicate AllBelow(dir: string, subs: seq<string>) {
    forall i :: 0 <= i < |subs| ==> |subs[i]| > |dir|
  }

  ghost function Walk(env: Env, cache: Cache, dir: string): (r: Walked)
    requires Descends(cache)
    ensures Descends(r.cache)
    decreases Below(env, dir), 1, 0
  {
    if dir in env.faults.stop || dir in env.faults.lstat then Walked(cache, None)
    else if dir !in env.nodes then Walked(cache, Some([]))
    else if dir in cache && cache[dir].mtime == env.nodes[dir].mtime then
      var r := WalkSubs(env, cache, dir, cache[dir].subdirs);
      Walked(r.cache, Prepend(cache[dir].files, r.found))
    else if dir in env.faults.read || env.nodes[dir].FileInfo? then Walked(cache, None)
    else
      var s := ScanEntries(env, cache, dir, env.nodes[dir].entries);
      if s.found.None? then Walked(s.cache, None)
      else Walked(s.cache[dir := Snapshot(env.nodes[dir].mtime, s.files, s.subdirs)], s.found)
  }

  function Prepend(files: seq<Entry>, found: Option<seq<Entry>>): Option<seq<Entry>> {
    match found
    case None => None
    case Some(more) => Some(files + more)
  }

  ghost function WalkSubs(env: Env, cache: Cache, dir: string, subs: seq<string>): (r: Walked)
    requires Descends(cache) && dir in env.nodes && AllBelow(dir, subs)
    ensures Descends(r.cache)
    decreases Below(env, dir), 0, |subs|
  {
    if subs == [] then Walked(cache, Some([])) else
      var n := |subs| - 1;
      var before := WalkSubs(env, cache, dir, subs[..n]);
      if before.found.None? then before else
        BelowShrinks(env, dir, subs[n]);
        var last := Walk(env, before.cache, subs[n]);
        Walked(last.cache, Prepend(before.found.value, last.found))
  }

  // A directory being read: what is found so far, its files and its subdirectories.
  datatype Scan = Scan(cache: Cache, found: Option<seq<Entry>>, files: seq<Entry>, subdirs: seq<string>)

  function Collect(env: Env, s: Scan, name: string, path: string): Scan
    requires s.found.Some?
  {
    if IsHidden(env, name, path) then s else
      var e := Entry(path, env.nodes[path].mtime);
      s.(files := s.files + [e], found := Some(s.found.value + [e]))
  }

  ghost function ScanEntries(env: Env, cache: Cache, dir: string, entries: seq<DirEntry>): (s: Scan)
    requires Descends(cache) && dir in env.nodes
    ensures Descends(s.cache) && AllBelow(dir, s.subdirs)
    decreases Below(env, dir), 0, |entries|
  {
    if entries == [] then Scan(cache, Some([]), [], []) else
      var e := entries[|entries| - 1];
      var path := Join(dir, e.name);
      var s := ScanEntries(env, cache, dir, entries[..|entries| - 1]);
      if s.found.None? then s
      else if path in env.faults.stop then s.(found := None)
      else if e.isDir then
        BelowShrinks(env, dir, path);
        var below := Walk(env, s.cache, path);
        Scan(below.cache, Prepend(s.found.value, below.found), s.files, s.subdirs + [path])
      else Collect(env, s, e.name, path)
  }

  // The roots one after the other; missing roots and files are skipped.
  ghost function DiscoverRoot(env: Env, cache: Cache, root: string): (r: Walked)
    requires Descends(cache)
    ensures Descends(r.cache)
  {
    if root in env.faults.stop || root in env.faults.lstat then Walked(cache, None)
    else if root !in env.nodes || env.nodes[root].FileInfo? then Walked(cache, Some([]))
    else Walk(env, cache, root)
  }

  ghost function DiscoverAll(env: Env, cache: Cache, roots: seq<string>): (r: Walked)
    requires Descends(cache)
    ensures Descends(r.cache)
  {
    if roots == [] then Walked(cache, Some([])) else
      var before := DiscoverAll(env, cache, roots[..|roots| - 1]);
      if before.found.None? then before else
        var last := DiscoverRoot(env, before.cache, roots[|roots| - 1]);
        Walked(last.cache, Prepend(before.found.value, last.found))
  }

  // An error ends a walk.
  lemma {:induction false} SubsStop(env: Env, cache: Cache, dir: string, subs: seq<string>, i: nat)
    requires Descends(cache) && dir in env.nodes && AllBelow(dir, subs) && i <= |subs|
    requires WalkSubs(env, cache, dir, subs[..i]).found.None?
    ensures WalkSubs(env, cache, dir, subs) == WalkSubs(env, cache, dir, subs[..i])
  {
    if i == |subs| {
      assert subs[..i] == subs;
    } else {
      assert subs[..|subs| - 1][..i] == subs[..i];
      SubsStop(env, cache, dir, subs[..|subs| - 1], i);
    }
  }

  lemma {:induction false} ScanStops(env: Env, cache: Cache, dir: string, entries: seq<DirEntry>, i: nat)
    requires Descends(cache) && dir in env.nodes && i <= |entries|
    requires ScanEntries(env, cache, dir, entries[..i]).found.None?
    ensures ScanEntries(env, cache, dir, entries) == ScanEntries(env, cache, dir, entries[..i])
  {
    if i == |entries| {
      assert entries[..i] == entries;
    } else {
      assert entries[..|entries| - 1][..i] == entries[..i];
      ScanStops(env, cache, dir, entries[..|entries| - 1], i);
    }
  }

  lemma {:induction false} RootsStop(env: Env, cache: Cache, roots: seq<string>, i: nat)
    requires Descends(cache) && i <= |roots|
    requires DiscoverAll(env, cache, roots[..i]).found.None?
    ensures DiscoverAll(env, cache, roots) == DiscoverAll(env, cache, roots[..i])
  {
    if i == |roots| {
      assert roots[..i] == roots;
    } else {
      assert roots[..|roots| - 1][..i] == roots[..i];
      RootsStop(env, cache, roots[..|roots| - 1], i);
    }
  }

  /******* The walker *******/

  class Walker {
    const roots: seq<string>
    var dirCache: Cache

    constructor (roots: seq<string>)
      ensures this.roots == roots && dirCache == map[]
    {
      this.roots := roots;
      dirCache := map[];
    }

    method Discover(env: Env) returns (found: Option<seq<Entry>>)
      requires Descends(dirCache)
      modifies this
      ensures Walked(dirCache, found) == DiscoverAll(env, old(dirCache), roots)
    {
      var results: seq<Entry> := [];
      var i := 0;
      while i < |roots|
        invariant 0 <= i <= |roots| && Descends(dirCache)
        invariant Walked(dirCache, Some(results)) == DiscoverAll(env, old(dirCache), roots[..i])
      {
        assert roots[..i + 1][..i] == roots[..i];
        if roots[i] in env.faults.stop {
          RootsStop(env, old(dirCache), roots, i + 1);
          return None;
        }
        var entries := WalkRoot(env, roots[i]);
        i := i + 1;
        if entries.None? {
          RootsStop(env, old(dirCache), roots, i);
          return None;
        }
        results := results + entries.value;
      }
      assert roots[..i] == roots;
      return Some(results);
    }

    method WalkRoot(env: Env, root: string) returns (found: Option<seq<Entry>>)
      requires Descends(dirCache) && root !in env.faults.stop
      modifies this
      ensures Walked(dirCache, found) == DiscoverRoot(env, old(dirCache), root)
    {
      if root in env.faults.lstat {
        return None;
      }
      if root !in env.nodes || env.nodes[root].FileInfo? {
        return Some([]);
      }
      found := WalkDir(env, root);
    }

    method WalkDir(env: Env, dir: string) returns (found: Option<seq<Entry>>)
      requires Descends(dirCache)
      modifies this
      ensures Walked(dirCache, found) == Walk(env, old(dirCache), dir)
      decreases Below(env, dir), 1, 0
    {
      if dir in env.faults.stop {
        return None;
      }
      if dir in env.faults.lstat {
        return None;
      }
      if dir !in env.nodes {
        return Some([]);
      }
      var dirMtime := env.nodes[dir].mtime;
      if dir in dirCache && dirCache[dir].mtime == dirMtime {
        var snap := dirCache[dir];
        found := WalkSubdirs(env, dir, snap.subdirs);
        if found.Some? {
          found := Some(snap.files + found.value);
        }
        return;
      }
      if dir in env.faults.read || env.nodes[dir].FileInfo? {
        return None;
      }
      var dirFiles, subdirs;
      found, dirFiles, subdirs := ReadEntries(env, dir, env.nodes[dir].entries);
      if found.Some? {
        dirCache := dirCache[dir := Snapshot(dirMtime, dirFiles, subdirs)];
      }
    }

    method WalkSubdirs(env: Env, dir: string, subs: seq<string>) returns (found: Option<seq<Entry>>)
      requires Descends(dirCache) && dir in env.nodes && AllBelow(dir, subs)
      modifies this
      ensures Walked(dirCache, found) == WalkSubs(env, old(dirCache), dir, subs)
      decreases Below(env, dir), 0, |subs|
    {
      var results: seq<Entry> := [];
      var i := 0;
      while i < |subs|
        invariant 0 <= i <= |subs| && Descends(dirCache)
        invariant Walked(dirCache, Some(results)) == WalkSubs(env, old(dirCache), dir, subs[..i])
      {
        assert subs[..i + 1][..i] == subs[..i];
        BelowShrinks(env, dir, subs[i]);
        var more := WalkDir(env, subs[i]);
        i := i + 1;
        if more.None? {
          SubsStop(env, old(dirCache), dir, subs, i);
          return None;
        }
        results := results + more.value;
      }
      assert subs[..i] == subs;
      return Some(results);
    }

    method ReadEntries(env: Env, dir: string, entries: seq<DirEntry>)
      returns (found: Option<seq<Entry>>, dirFiles: seq<Entry>, subdirs: seq<string>)
      requires Descends(dirCache) && dir in env.nodes
      modifies this
      ensures var s := ScanEntries(env, old(dirCache), dir, entries);
              dirCache == s.cache && found == s.found && (found.Some? ==> dirFiles == s.files && subdirs == s.subdirs)
      decreases Below(env, dir), 0, |entries|
    {
      var results: seq<Entry> := [];
      dirFiles, subdirs := [], [];
      var i := 0;
      while i < |entries|
        invariant 0 <= i <= |entries| && Descends(dirCache)
        invariant Scan(dirCache, Some(results), dirFiles, subdirs) == ScanEntries(env, old(dirCache), dir, entries[..i])
      {
        assert entries[..i + 1][..i] == entries[..i];
        var e := entries[i];
        var fullPath := Join(dir, e.name);
        i := i + 1;
        if fullPath in env.faults.stop {
          ScanStops(env, old(dirCache), dir, entries, i);
          return None, dirFiles, subdirs;
        }
        if e.isDir {
          subdirs := subdirs + [fullPath];
          BelowShrinks(env, dir, fullPath);
          var below := WalkDir(env, fullPath);
          if below.None? {
            ScanStops(env, old(dirCache), dir, entries, i);
            return None, dirFiles, subdirs;
          }
          results := results + below.value;
          continue;
        }
        if fullPath in env.faults.info || fullPath !in env.nodes || !env.matches(e.name) {
          continue;
        }
        var f := Entry(fullPath, env.nodes[fullPath].mtime);
        dirFiles, results := dirFiles + [f], results + [f];
      }
      assert entries[..i] == entries;
      return Some(results), dirFiles, subdirs;
    }
  }

  /******* Agreement *******/

  function PathsOf(found: seq<Entry>): (paths: seq<string>)
    ensures |paths| == |found|
  {
    seq(|found|, i requires 0 <= i < |found| => found[i].path)
  }

  function Times(paths: seq<string>, p: string): nat {
    if paths == [] then 0 else
      Times(paths[..|paths| - 1], p) + (if paths[|paths| - 1] == p then 1 else 0)
  }

  lemma {:induction false} TimesConcat(a: seq<string>, b: seq<string>, p: string)
    ensures Times(a + b, p) == Times(a, p) + Times(b, p)
  {
    if b == [] {
      assert a + b == a;
    } else {
      assert (a + b)[..|a + b| - 1] == a + b[..|b| - 1];
      TimesConcat(a, b[..|b| - 1], p);
    }
  }

  lemma FoundConcat(a: seq<Entry>, b: seq<Entry>, p: string)
    ensures PathsOf(a + b) == PathsOf(a) + PathsOf(b)
    ensures Times(PathsOf(a + b), p) == Times(PathsOf(a), p) + Times(PathsOf(b), p)
  {
    assert PathsOf(a + b) == PathsOf(a) + PathsOf(b);
    TimesConcat(PathsOf(a), PathsOf(b), p);
  }

  // What each directory lists at each modification time.
  type Listing = (string, Time) -> seq<DirEntry>

  ghost predicate ListsAs(nodes: map<string, Info>, listing: Listing) {
    forall d :: d in nodes && nodes[d].DirInfo? ==> nodes[d].entries == listing(d, nodes[d].mtime)
  }

  // The matching files of a directory but for the hidden ones.
  function FilesOf(matches: string -> bool, dir: string, entries: seq<DirEntry>, hidden: set<string>): seq<string> {
    if entries == [] then [] else
      var e := entries[|entries| - 1];
      FilesOf(matches, dir, entries[..|entries| - 1], hidden)
      + (if !e.isDir && matches(e.name) && Join(dir, e.name) !in hidden then [Join(dir, e.name)] else [])
  }

  // How often a path is among the matching files of a directory.
  function Listed(matches: string -> bool, dir: string, entries: seq<DirEntry>, p: string): nat {
    if entries == [] then 0 else
      var e := entries[|entries| - 1];
      Listed(matches, dir, entries[..|entries| - 1], p)
      + (if !e.isDir && matches(e.name) && Join(dir, e.name) == p then 1 else 0)
  }

  function SubdirsOf(dir: string, entries: seq<DirEntry>): seq<string> {
    if entries == [] then [] else
      var e := entries[|entries| - 1];
      SubdirsOf(dir, entries[..|entries| - 1]) + (if e.isDir then [Join(dir, e.name)] else [])
  }

  predicate SnapshotOk(matches: string -> bool, dir: string, snap: Snapshot, entries: seq<DirEntry>,
                       hidden: set<string>) {
    PathsOf(snap.files) == FilesOf(matches, dir, entries, hidden) && snap.subdirs == SubdirsOf(dir, entries)
  }

  // For which paths Info failed when a directory was read at a modification time.
  type Memory = (string, Time) -> set<string>

  // Every snapshot is what the directory listed at the snapshot's time, without what failed when it was read.
  ghost predicate Faithful(cache: Cache, mem: Memory, matches: string -> bool, listing: Listing) {
    && Descends(cache)
    && forall d :: d in cache ==>
         SnapshotOk(matches, d, cache[d], listing(d, cache[d].mtime), mem(d, cache[d].mtime))
  }

  // The snapshot of the directory is used instead of reading it.
  predicate Valid(env: Env, cache: Cache, d: string) {
    d in env.nodes && d in cache && cache[d].mtime == env.nodes[d].mtime
  }

  // What is read from now on is read with the failures of this call.
  ghost predicate UpToDate(env: Env, mem: Memory, cache: Cache) {
    forall d :: d in env.nodes && !Valid(env, cache, d) ==> mem(d, env.nodes[d].mtime) == env.faults.info
  }

  // `p` is not shown: Info failed for it when its directory was read.
  predicate Hidden(env: Env, mem: Memory, p: string) {
    Parent(p) in env.nodes && p in mem(Parent(p), env.nodes[Parent(p)].mtime)
  }

  ghost predicate Sees(env: Env, listing: Listing) {
    WellFormed(env.nodes) && ListsAs(env.nodes, listing)
  }

  // The same call with no Info failures.
  function Plain(env: Env): Env {
    env.(faults := env.faults.(info := {}))
  }

  // A hidden path is not found, any other as often as it is there; and without failing reads or cancellation the walk
  // fails if a fresh one does.
  predicate Shows(env: Env, found: Option<seq<Entry>>, there: Option<nat>, hidden: bool, p: string) {
    && (there.Some? ==> found.Some? && Times(PathsOf(found.value), p) == if hidden then 0 else there.value)
    && (env.faults.read == {} && env.faults.stop == {} && found.Some? ==> there.Some?)
  }

  ghost predicate Agrees(env: Env, listing: Listing, mem: Memory, r: Walked, there: Option<nat>, p: string) {
    && Faithful(r.cache, mem, env.matches, listing) && UpToDate(env, mem, r.cache)
    && Shows(env, r.found, there, Hidden(env, mem, p), p)
  }

  ghost function FreshSubs(env: Env, dir: string, subs: seq<string>, p: string): Option<nat> {
    if subs == [] then Some(0) else
      Plus(FreshSubs(env, dir, subs[..|subs| - 1], p), Fresh(env, subs[|subs| - 1], p))
  }

  // None of the paths is a file.
  ghost predicate NoFiles(env: Env, paths: seq<string>) {
    forall i :: 0 <= i < |paths| ==> IsNoFile(env, paths[i])
  }

  predicate IsNoFile(env: Env, path: string) {
    path in env.nodes ==> env.nodes[path].DirInfo?
  }

  lemma FreshSubsPush(env: Env, dir: string, subs: seq<string>, sub: string, p: string)
    ensures FreshSubs(env, dir, subs + [sub], p) == Plus(FreshSubs(env, dir, subs, p), Fresh(env, sub, p))
  {
    assert (subs + [sub])[..|subs|] == subs;
  }

  lemma TimesPush(paths: seq<string>, path: string, p: string)
    ensures Times(paths + [path], p) == Times(paths, p) + (if path == p then 1 else 0)
  {
    assert (paths + [path])[..|paths|] == paths;
  }

  ghost predicate Splits(env: Env, dir: string, entries: seq<DirEntry>, p: string)
    requires dir in env.nodes
  {
    && AllBelow(dir, SubdirsOf(dir, entries)) && NoFiles(env, SubdirsOf(dir, entries))
    && (FreshEntries(env, dir, entries, p).Some? || env.faults.stop == {} ==>
          FreshEntries(env, dir, entries, p)
          == Plus(Some(Listed(env.matches, dir, entries, p)), FreshSubs(env, dir, SubdirsOf(dir, entries), p)))
  }

  lemma FreshLast(env: Env, dir: string, entries: seq<DirEntry>, e: DirEntry, path: string, p: string)
    requires dir in env.nodes && entries != [] && e == entries[|entries| - 1] && path == Join(dir, e.name)
    ensures FreshEntries(env, dir, entries, p)
         == Plus(FreshEntries(env, dir, entries[..|entries| - 1], p),
                 if e.isDir then Fresh(env, path, p) else FreshFile(env, e.name, path, p))
  {
  }

  lemma SubdirsLast(dir: string, entries: seq<DirEntry>, e: DirEntry, path: string)
    requires entries != [] && e == entries[|entries| - 1] && path == Join(dir, e.name)
    ensures var before := SubdirsOf(dir, entries[..|entries| - 1]);
            SubdirsOf(dir, entries) == if e.isDir then before + [path] else before
  {
    if !e.isDir {
      assert SubdirsOf(dir, entries) == SubdirsOf(dir, entries[..|entries| - 1]);
    }
  }

  lemma PlusOne(n: nat, subs: Option<nat>, one: nat)
    ensures Plus(Plus(Some(n), subs), Some(one)) == Plus(Some(n + one), subs)
  {
  }

  lemma PlusMoves(n: nat, subs: Option<nat>, below: Option<nat>)
    ensures Plus(Plus(Some(n), subs), below) == Plus(Some(n), Plus(subs, below))
  {
  }

  lemma PathsBelowPush(env: Env, dir: string, subs: seq<string>, path: string)
    requires AllBelow(dir, subs) && NoFiles(env, subs) && |path| > |dir| && IsNoFile(env, path)
    ensures AllBelow(dir, subs + [path]) && NoFiles(env, subs + [path])
  {
  }

  lemma DirSplits(env: Env, dir: string, entries: seq<DirEntry>, before: seq<DirEntry>, e: DirEntry, path: string,
                  p: string)
    requires dir in env.nodes && entries != [] && before == entries[..|entries| - 1] && e == entries[|entries| - 1]
    requires e.isDir && path == Join(dir, e.name) && IsNoFile(env, path) && Splits(env, dir, before, p)
    ensures Splits(env, dir, entries, p)
  {
    var subs, files := SubdirsOf(dir, before), Listed(env.matches, dir, before, p);
    FreshLast(env, dir, entries, e, path, p);
    SubdirsLast(dir, entries, e, path);
    FreshSubsPush(env, dir, subs, path, p);
    PathsBelowPush(env, dir, subs, path);
    PlusMoves(files, FreshSubs(env, dir, subs, p), Fresh(env, path, p));
  }

  lemma FileSplits(env: Env, dir: string, entries: seq<DirEntry>, before: seq<DirEntry>, e: DirEntry, path: string,
                   p: string)
    requires dir in env.nodes && entries != [] && before == entries[..|entries| - 1] && e == entries[|entries| - 1]
    requires env.faults.info == {} && !e.isDir && path == Join(dir, e.name) && path in env.nodes
    requires Splits(env, dir, before, p)
    ensures Splits(env, dir, entries, p)
  {
    FreshLast(env, dir, entries, e, path, p);
    SubdirsLast(dir, entries, e, path);
    PlusOne(Listed(env.matches, dir, before, p), FreshSubs(env, dir, SubdirsOf(dir, before), p),
            if env.matches(e.name) && path == p then 1 else 0);
  }

  // A directory's files and what its subdirectories hold, in whichever order.
  lemma {:induction false} FreshIsFilesAndSubs(env: Env, listing: Listing, dir: string, entries: seq<DirEntry>,
                                               p: string)
    requires Sees(env, listing) && env.faults.info == {} && dir in env.nodes && env.nodes[dir].DirInfo?
    requires entries <= env.nodes[dir].entries
    ensures Splits(env, dir, entries, p)
    decreases |entries|
  {
    if entries == [] {
      assert SubdirsOf(dir, entries) == [];
    } else {
      var front, e := entries[..|entries| - 1], entries[|entries| - 1];
      FreshIsFilesAndSubs(env, listing, dir, front, p);
      assert e in env.nodes[dir].entries;
      if e.isDir {
        DirSplits(env, dir, entries, front, e, Join(dir, e.name), p);
      } else {
        FileSplits(env, dir, entries, front, e, Join(dir, e.name), p);
      }
    }
  }

  lemma FilesLast(matches: string -> bool, dir: string, entries: seq<DirEntry>, e: DirEntry, path: string,
                  hidden: set<string>)
    requires entries != [] && e == entries[|entries| - 1] && path == Join(dir, e.name)
    ensures var before := FilesOf(matches, dir, entries[..|entries| - 1], hidden);
            FilesOf(matches, dir, entries, hidden)
            == if !e.isDir && matches(e.name) && path !in hidden then before + [path] else before
  {
    if e.isDir || !matches(e.name) || path in hidden {
      assert FilesOf(matches, dir, entries, hidden) == FilesOf(matches, dir, entries[..|entries| - 1], hidden);
    }
  }

  lemma {:induction false} HiddenFiles(matches: string -> bool, dir: string, entries: seq<DirEntry>,
                                       hidden: set<string>, p: string)
    requires forall i :: 0 <= i < |entries| ==> '/' !in entries[i].name
    ensures Times(FilesOf(matches, dir, entries, hidden), p)
         == if p in hidden then 0 else Listed(matches, dir, entries, p)
    ensures Listed(matches, dir, entries, p) > 0 ==> Parent(p) == dir
    decreases |entries|
  {
    if entries != [] {
      var n := |entries| - 1;
      var path := Join(dir, entries[n].name);
      HiddenFiles(matches, dir, entries[..n], hidden, p);
      ParentOfJoin(dir, entries[n].name);
      FilesLast(matches, dir, entries, entries[n], path, hidden);
      TimesPush(FilesOf(matches, dir, entries[..n], hidden), path, p);
    }
  }

  lemma {:induction false} WalkAgrees(env: Env, listing: Listing, mem: Memory, cache: Cache, dir: string, p: string)
    requires Sees(env, listing) && IsNoFile(env, dir)
    requires Faithful(cache, mem, env.matches, listing) && UpToDate(env, mem, cache)
    ensures Agrees(env, listing, mem, Walk(env, cache, dir), Fresh(Plain(env), dir, p), p)
    decreases Below(env, dir), 1, 0
  {
    if dir in env.faults.stop || dir in env.faults.lstat || dir !in env.nodes {
    } else if Valid(env, cache, dir) {
      CachedAgrees(env, listing, mem, cache, dir, p);
    } else if dir in env.faults.read {
    } else {
      ScanAgrees(env, listing, mem, cache, dir, env.nodes[dir].entries, p);
      StoreAgrees(env, listing, mem, cache, dir, p);
    }
  }

  lemma StoreAgrees(env: Env, listing: Listing, mem: Memory, cache: Cache, dir: string, p: string)
    requires Sees(env, listing) && Descends(cache) && dir in env.nodes && env.nodes[dir].DirInfo?
    requires dir !in env.faults.stop && dir !in env.faults.lstat && dir !in env.faults.read && !Valid(env, cache, dir)
    requires mem(dir, env.nodes[dir].mtime) == env.faults.info
    requires Scanned(env, listing, mem, dir, env.nodes[dir].entries,
                     ScanEntries(env, cache, dir, env.nodes[dir].entries), p)
    ensures Agrees(env, listing, mem, Walk(env, cache, dir), Fresh(Plain(env), dir, p), p)
  {
  }

  lemma {:induction false} CachedAgrees(env: Env, listing: Listing, mem: Memory, cache: Cache, dir: string, p: string)
    requires Sees(env, listing) && Faithful(cache, mem, env.matches, listing) && UpToDate(env, mem, cache)
    requires dir !in env.faults.stop && dir !in env.faults.lstat && Valid(env, cache, dir) && env.nodes[dir].DirInfo?
    ensures Agrees(env, listing, mem, Walk(env, cache, dir), Fresh(Plain(env), dir, p), p)
    decreases Below(env, dir), 0, |cache[dir].subdirs| + 1
  {
    var snap, entries := cache[dir], env.nodes[dir].entries;
    FreshIsFilesAndSubs(Plain(env), listing, dir, entries, p);
    SubsAgree(env, listing, mem, cache, dir, snap.subdirs, p);
    assert forall i :: 0 <= i < |entries| ==> entries[i] in entries;
    HiddenFiles(env.matches, dir, entries, mem(dir, snap.mtime), p);
    var r := WalkSubs(env, cache, dir, snap.subdirs);
    if r.found.Some? {
      FoundConcat(snap.files, r.found.value, p);
    }
    assert dir !in env.faults.read ==>
      Fresh(Plain(env), dir, p) == FreshEntries(Plain(env), dir, entries, p);
  }

  lemma {:induction false} SubsAgree(env: Env, listing: Listing, mem: Memory, cache: Cache, dir: string,
                                     subs: seq<string>, p: string)
    requires Sees(env, listing) && Faithful(cache, mem, env.matches, listing) && UpToDate(env, mem, cache)
    requires dir in env.nodes && AllBelow(dir, subs) && NoFiles(env, subs)
    ensures Agrees(env, listing, mem, WalkSubs(env, cache, dir, subs), FreshSubs(Plain(env), dir, subs, p), p)
    decreases Below(env, dir), 0, |subs|
  {
    if subs == [] {
      assert WalkSubs(env, cache, dir, subs) == Walked(cache, Some([]));
    } else {
      var n := |subs| - 1;
      SubsAgree(env, listing, mem, cache, dir, subs[..n], p);
      var before := WalkSubs(env, cache, dir, subs[..n]);
      if before.found.Some? {
        BelowShrinks(env, dir, subs[n]);
        WalkAgrees(env, listing, mem, before.cache, subs[n], p);
        ShowsMore(env, before.found.value, FreshSubs(Plain(env), dir, subs[..n], p),
                  Walk(env, before.cache, subs[n]).found, Fresh(Plain(env), subs[n], p), Hidden(env, mem, p), p);
      }
    }
  }

  // Scanning has come to the end of `entries`.
  ghost predicate Scanned(env: Env, listing: Listing, mem: Memory, dir: string, entries: seq<DirEntry>,
                          s: Scan, p: string)
    requires dir in env.nodes
  {
    && Agrees(env, listing, mem, Walked(s.cache, s.found), FreshEntries(Plain(env), dir, entries, p), p)
    && (s.found.Some? ==>
          SnapshotOk(env.matches, dir, Snapshot(env.nodes[dir].mtime, s.files, s.subdirs), entries, env.faults.info))
  }

  lemma PathsPush(found: seq<Entry>, f: Entry, p: string)
    ensures PathsOf(found + [f]) == PathsOf(found) + [f.path]
    ensures Times(PathsOf(found + [f]), p) == Times(PathsOf(found), p) + (if f.path == p then 1 else 0)
  {
    assert PathsOf(found + [f]) == PathsOf(found) + [f.path];
    TimesPush(PathsOf(found), f.path, p);
  }

  lemma FileScanned(env: Env, listing: Listing, mem: Memory, dir: string, entries: seq<DirEntry>, e: DirEntry, s: Scan,
                    p: string)
    requires dir in env.nodes && mem(dir, env.nodes[dir].mtime) == env.faults.info
    requires !e.isDir && Join(dir, e.name) in env.nodes && '/' !in e.name
    requires Scanned(env, listing, mem, dir, entries, s, p)
    ensures Scanned(env, listing, mem, dir, entries + [e],
                    if s.found.None? then s
                    else if Join(dir, e.name) in env.faults.stop then s.(found := None)
                    else Collect(env, s, e.name, Join(dir, e.name)), p)
  {
    var path := Join(dir, e.name);
    assert (entries + [e])[..|entries|] == entries;
    ParentOfJoin(dir, e.name);
    if s.found.Some? && env.matches(e.name) && path !in env.faults.info && path !in env.faults.stop {
      PathsPush(s.found.value, Entry(path, env.nodes[path].mtime), p);
      PathsPush(s.files, Entry(path, env.nodes[path].mtime), p);
    }
  }

  lemma DirScanned(env: Env, listing: Listing, mem: Memory, dir: string, entries: seq<DirEntry>, e: DirEntry, s: Scan,
                   below: Walked, p: string)
    requires dir in env.nodes && e.isDir && s.found.Some? && Join(dir, e.name) !in env.faults.stop
    requires Scanned(env, listing, mem, dir, entries, s, p)
    requires Agrees(env, listing, mem, below, Fresh(Plain(env), Join(dir, e.name), p), p)
    ensures Scanned(env, listing, mem, dir, entries + [e],
                    Scan(below.cache, Prepend(s.found.value, below.found), s.files, s.subdirs + [Join(dir, e.name)]), p)
  {
    assert (entries + [e])[..|entries|] == entries;
    if below.found.Some? {
      FoundConcat(s.found.value, below.found.value, p);
    }
  }

  lemma {:induction false} ScanAgrees(env: Env, listing: Listing, mem: Memory, cache: Cache, dir: string,
                                      entries: seq<DirEntry>, p: string)
    requires Sees(env, listing) && Faithful(cache, mem, env.matches, listing) && UpToDate(env, mem, cache)
    requires dir in env.nodes && env.nodes[dir].DirInfo? && entries <= env.nodes[dir].entries
    requires mem(dir, env.nodes[dir].mtime) == env.faults.info
    ensures Scanned(env, listing, mem, dir, entries, ScanEntries(env, cache, dir, entries), p)
    decreases Below(env, dir), 0, |entries|
  {
    if entries == [] {
      assert ScanEntries(env, cache, dir, entries) == Scan(cache, Some([]), [], []);
    } else {
      var n := |entries| - 1;
      ScanAgrees(env, listing, mem, cache, dir, entries[..n], p);
      assert entries[n] in env.nodes[dir].entries && entries[..n] + [entries[n]] == entries;
      var s, path := ScanEntries(env, cache, dir, entries[..n]), Join(dir, entries[n].name);
      if !entries[n].isDir {
        FileScanned(env, listing, mem, dir, entries[..n], entries[n], s, p);
      } else if s.found.Some? && path !in env.faults.stop {
        BelowShrinks(env, dir, path);
        WalkAgrees(env, listing, mem, s.cache, path, p);
        DirScanned(env, listing, mem, dir, entries[..n], entries[n], s, Walk(env, s.cache, path), p);
      } else {
        FreshLast(Plain(env), dir, entries, entries[n], path, p);
      }
    }
  }

  /******* Any sequence of calls *******/

  ghost function FreshRoot(env: Env, root: string, p: string): Option<nat> {
    if root in env.faults.stop || root in env.faults.lstat then None
    else if root !in env.nodes || env.nodes[root].FileInfo? then Some(0)
    else Fresh(env, root, p)
  }

  ghost function FreshRoots(env: Env, roots: seq<string>, p: string): Option<nat> {
    if roots == [] then Some(0) else
      Plus(FreshRoots(env, roots[..|roots| - 1], p), FreshRoot(env, roots[|roots| - 1], p))
  }

  lemma RootAgrees(env: Env, listing: Listing, mem: Memory, cache: Cache, root: string, p: string)
    requires Sees(env, listing) && Faithful(cache, mem, env.matches, listing) && UpToDate(env, mem, cache)
    ensures Agrees(env, listing, mem, DiscoverRoot(env, cache, root), FreshRoot(Plain(env), root, p), p)
  {
    if root in env.nodes && env.nodes[root].DirInfo? {
      WalkAgrees(env, listing, mem, cache, root, p);
    }
  }

  // Two walks one after the other.
  lemma ShowsMore(env: Env, before: seq<Entry>, there: Option<nat>, last: Option<seq<Entry>>, more: Option<nat>,
                  hidden: bool, p: string)
    requires Shows(env, Some(before), there, hidden, p) && Shows(env, last, more, hidden, p)
    ensures Shows(env, Prepend(before, last), Plus(there, more), hidden, p)
  {
    if last.Some? {
      FoundConcat(before, last.value, p);
    }
  }

  lemma {:induction false} DiscoverAgrees(env: Env, listing: Listing, mem: Memory, cache: Cache, roots: seq<string>,
                                          p: string)
    requires Sees(env, listing) && Faithful(cache, mem, env.matches, listing) && UpToDate(env, mem, cache)
    ensures Agrees(env, listing, mem, DiscoverAll(env, cache, roots), FreshRoots(Plain(env), roots, p), p)
  {
    if roots == [] {
      assert DiscoverAll(env, cache, roots) == Walked(cache, Some([]));
    } else {
      var n := |roots| - 1;
      DiscoverAgrees(env, listing, mem, cache, roots[..n], p);
      var before := DiscoverAll(env, cache, roots[..n]);
      if before.found.Some? {
        RootAgrees(env, listing, mem, before.cache, roots[n], p);
        ShowsMore(env, before.found.value, FreshRoots(Plain(env), roots[..n], p),
                  DiscoverRoot(env, before.cache, roots[n]).found, FreshRoot(Plain(env), roots[n], p),
                  Hidden(env, mem, p), p);
      }
    }
  }

  // The cache after a call for each state of the file system.
  ghost function CacheAfter(envs: seq<Env>, roots: seq<string>): (cache: Cache)
    ensures Descends(cache)
  {
    if envs == [] then map[] else
      DiscoverAll(envs[|envs| - 1], CacheAfter(envs[..|envs| - 1], roots), roots).cache
  }

  // A call reads the directories without a valid snapshot, with the Info failures it meets.
  function Remember(mem: Memory, env: Env, cache: Cache): Memory {
    (d, t) => if d in env.nodes && env.nodes[d].mtime == t && !Valid(env, cache, d) then env.faults.info else mem(d, t)
  }

  // For which paths Info failed when the snapshots in the cache were taken.
  ghost function MemoryAfter(envs: seq<Env>, roots: seq<string>): Memory {
    if envs == [] then (_, _) => {} else
      Remember(MemoryAfter(envs[..|envs| - 1], roots), envs[|envs| - 1], CacheAfter(envs[..|envs| - 1], roots))
  }

  ghost predicate SeesAll(envs: seq<Env>, matches: string -> bool, listing: Listing) {
    forall i :: 0 <= i < |envs| ==> envs[i].matches == matches && Sees(envs[i], listing)
  }

  lemma RememberFits(mem: Memory, env: Env, cache: Cache, listing: Listing)
    requires Faithful(cache, mem, env.matches, listing)
    ensures Faithful(cache, Remember(mem, env, cache), env.matches, listing)
    ensures UpToDate(env, Remember(mem, env, cache), cache)
  {
    forall d | d in cache ensures Remember(mem, env, cache)(d, cache[d].mtime) == mem(d, cache[d].mtime) {
    }
  }

  lemma {:induction false} CacheStaysFaithful(envs: seq<Env>, matches: string -> bool, listing: Listing,
                                              roots: seq<string>)
    requires SeesAll(envs, matches, listing)
    ensures Faithful(CacheAfter(envs, roots), MemoryAfter(envs, roots), matches, listing)
  {
    if envs != [] {
      var n := |envs| - 1;
      var cache, mem := CacheAfter(envs[..n], roots), MemoryAfter(envs[..n], roots);
      CacheStaysFaithful(envs[..n], matches, listing, roots);
      RememberFits(mem, envs[n], cache, listing);
      DiscoverAgrees(envs[n], listing, Remember(mem, envs[n], cache), cache, roots, "");
    }
  }

  // In a call after the given ones `p` is hidden: by the snapshot of its directory if that is valid, else by the call.
  ghost predicate HiddenNow(envs: seq<Env>, env: Env, roots: seq<string>, p: string) {
    var d := Parent(p);
    if Valid(env, CacheAfter(envs, roots), d) then p in MemoryAfter(envs, roots)(d, env.nodes[d].mtime)
    else d in env.nodes && p in env.faults.info
  }

  function Unless(hidden: bool, there: Option<nat>): Option<nat> {
    match there
    case None => None
    case Some(n) => Some(if hidden then 0 else n)
  }

  lemma {:induction false} FreshHides(env: Env, dir: string, p: string)
    ensures Fresh(env, dir, p) == Unless(p in env.faults.info, Fresh(Plain(env), dir, p))
    decreases Below(env, dir), 1, 0
  {
    if dir in env.nodes && env.nodes[dir].DirInfo? {
      FreshEntriesHide(env, dir, env.nodes[dir].entries, p);
    }
  }

  lemma {:induction false} FreshEntriesHide(env: Env, dir: string, entries: seq<DirEntry>, p: string)
    requires dir in env.nodes
    ensures FreshEntries(env, dir, entries, p)
         == Unless(p in env.faults.info, FreshEntries(Plain(env), dir, entries, p))
    decreases Below(env, dir), 0, |entries|
  {
    if entries != [] {
      var n := |entries| - 1;
      FreshEntriesHide(env, dir, entries[..n], p);
      if entries[n].isDir {
        BelowShrinks(env, dir, Join(dir, entries[n].name));
        FreshHides(env, Join(dir, entries[n].name), p);
      }
    }
  }

  lemma {:induction false} FreshRootsHide(env: Env, roots: seq<string>, p: string)
    ensures FreshRoots(env, roots, p) == Unless(p in env.faults.info, FreshRoots(Plain(env), roots, p))
  {
    if roots != [] {
      var n := |roots| - 1;
      FreshRootsHide(env, roots[..n], p);
      FreshHides(env, roots[n], p);
    }
  }

  // After any sequence of changes to the tree and of calls that failed or were cancelled anywhere: a call that a fresh
  // walk would finish finishes, and finds a path as often as it is there unless it is hidden.  So it finds it as often
  // as the fresh walk if and only if it is not there, or hidden exactly when Info fails for it now.
  lemma CacheAgreement(envs: seq<Env>, env: Env, listing: Listing, roots: seq<string>, p: string)
    requires SeesAll(envs, env.matches, listing) && Sees(env, listing)
    ensures var found := DiscoverAll(env, CacheAfter(envs, roots), roots).found;
            var anew, there := FreshRoots(env, roots, p), FreshRoots(Plain(env), roots, p);
            var hidden := HiddenNow(envs, env, roots, p);
            && (anew.Some? <==> there.Some?)
            && (anew.Some? ==>
                  && found.Some?
                  && Times(PathsOf(found.value), p) == (if hidden then 0 else there.value)
                  && (Times(PathsOf(found.value), p) == anew.value
                      <==> there.value == 0 || (hidden <==> p in env.faults.info)))
            && (env.faults.read == {} && env.faults.stop == {} && found.Some? ==> anew.Some?)
  {
    var cache, mem := CacheAfter(envs, roots), MemoryAfter(envs, roots);
    CacheStaysFaithful(envs, env.matches, listing, roots);
    RememberFits(mem, env, cache, listing);
    DiscoverAgrees(env, listing, Remember(mem, env, cache), cache, roots, p);
    FreshRootsHide(env, roots, p);
    assert Hidden(env, Remember(mem, env, cache), p) == HiddenNow(envs, env, roots, p);
  }

  lemma {:induction false} TimesIsMultiset(paths: seq<string>, p: string)
    ensures multiset(paths)[p] == Times(paths, p)
  {
    if paths != [] {
      var n := |paths| - 1;
      TimesIsMultiset(paths[..n], p);
      assert paths == paths[..n] + [paths[n]];
    }
  }

  // In a call without failures the result is, as a multiset of paths, that of a walker with an empty cache if and only
  // if none of the paths there is hidden by a snapshot.
  lemma CacheIsUnobservable(envs: seq<Env>, env: Env, listing: Listing, roots: seq<string>)
    requires SeesAll(envs, env.matches, listing) && Sees(env, listing)
    requires env.faults == NO_FAULTS
    ensures var cached := DiscoverAll(env, CacheAfter(envs, roots), roots).found;
            var empty := DiscoverAll(env, map[], roots).found;
            && cached.Some? && empty.Some?
            && (multiset(PathsOf(cached.value)) == multiset(PathsOf(empty.value))
                <==> forall p :: p in PathsOf(empty.value) ==> !HiddenNow(envs, env, roots, p))
  {
    var cached, empty := DiscoverAll(env, CacheAfter(envs, roots), roots).found, DiscoverAll(env, map[], roots).found;
    CountsInBoth(envs, env, listing, roots, "");
    var a, b := PathsOf(cached.value), PathsOf(empty.value);
    forall p
      ensures multiset(a)[p] == (if HiddenNow(envs, env, roots, p) then 0 else multiset(b)[p])
      ensures p in b <==> multiset(b)[p] > 0
    {
      CountsInBoth(envs, env, listing, roots, p);
      TimesIsMultiset(a, p);
      TimesIsMultiset(b, p);
    }
    if forall p :: p in b ==> !HiddenNow(envs, env, roots, p) {
      assert multiset(a) == multiset(b);
    }
  }

  lemma CountsInBoth(envs: seq<Env>, env: Env, listing: Listing, roots: seq<string>, p: string)
    requires SeesAll(envs, env.matches, listing) && Sees(env, listing)
    requires env.faults == NO_FAULTS
    ensures var cached := DiscoverAll(env, CacheAfter(envs, roots), roots).found;
            var empty := DiscoverAll(env, map[], roots).found;
            && cached.Some? && empty.Some?
            && Times(PathsOf(cached.value), p)
               == if HiddenNow(envs, env, roots, p) then 0 else Times(PathsOf(empty.value), p)
  {
    FreshRootsSucceed(env, roots, p);
    CacheAgreement(envs, env, listing, roots, p);
    CacheAgreement([], env, listing, roots, p);
    assert CacheAfter([], roots) == map[];
  }

  lemma {:induction false} FreshSucceeds(env: Env, dir: string, p: string)
    requires WellFormed(env.nodes) && env.faults == NO_FAULTS && IsNoFile(env, dir)
    ensures Fresh(env, dir, p).Some?
    decreases Below(env, dir), 1, 0
  {
    if dir in env.nodes {
      FreshEntriesSucceed(env, dir, env.nodes[dir].entries, p);
    }
  }

  lemma {:induction false} FreshEntriesSucceed(env: Env, dir: string, entries: seq<DirEntry>, p: string)
    requires WellFormed(env.nodes) && env.faults == NO_FAULTS
    requires dir in env.nodes && env.nodes[dir].DirInfo? && entries <= env.nodes[dir].entries
    ensures FreshEntries(env, dir, entries, p).Some?
    decreases Below(env, dir), 0, |entries|
  {
    if entries != [] {
      var n := |entries| - 1;
      FreshEntriesSucceed(env, dir, entries[..n], p);
      assert entries[n] in env.nodes[dir].entries;
      if entries[n].isDir {
        BelowShrinks(env, dir, Join(dir, entries[n].name));
        FreshSucceeds(env, Join(dir, entries[n].name), p);
      }
    }
  }

  lemma {:induction false} FreshRootsSucceed(env: Env, roots: seq<string>, p: string)
    requires WellFormed(env.nodes) && env.faults == NO_FAULTS
    ensures FreshRoots(env, roots, p).Some?
  {
    if roots != [] {
      var n := |roots| - 1;
      FreshRootsSucceed(env, roots[..n], p);
      if roots[n] in env.nodes && env.nodes[roots[n]].DirInfo? {
        FreshSucceeds(env, roots[n], p);
      }
    }
  }

  // A failing Info call is remembered: the file it hid stays hidden in later calls, until its directory changes.
  lemma HiddenFileStaysHidden(matches: string -> bool)
    requires matches("a")
    ensures var nodes := map["r" := DirInfo(1, [DirEntry("a", false)]), "r/a" := FileInfo(1)];
            var failing := Env(nodes, Faults({}, {}, {"r/a"}, {}), matches);
            var env := Env(nodes, NO_FAULTS, matches);
            && DiscoverAll(env, CacheAfter([failing], ["r"]), ["r"]).found == Some([])
            && FreshRoots(env, ["r"], "r/a") == Some(1)
  {
    var nodes := map["r" := DirInfo(1, [DirEntry("a", false)]), "r/a" := FileInfo(1)];
    var failing := Env(nodes, Faults({}, {}, {"r/a"}, {}), matches);
    var env := Env(nodes, NO_FAULTS, matches);
    var entries := [DirEntry("a", false)];
    assert Join("r", "a") == "r/a";
    assert entries[..0] == [] && ["r"][..0] == [];
    assert ScanEntries(failing, map[], "r", entries) == Scan(map[], Some([]), [], []);
    assert Walk(failing, map[], "r") == Walked(map["r" := Snapshot(1, [], [])], Some([]));
    assert DiscoverAll(failing, map[], []) == Walked(map[], Some([]));
    assert CacheAfter([failing], ["r"]) == map["r" := Snapshot(1, [], [])] by {
      assert [failing][..0] == [] && CacheAfter([], ["r"]) == map[];
    }
    var cache := map["r" := Snapshot(1, [], [])];
    assert WalkSubs(env, cache, "r", []) == Walked(cache, Some([]));
    var none: seq<Entry> := [];
    assert none + none == none;
    assert Walk(env, cache, "r") == Walked(cache, Some([]));
    assert DiscoverAll(env, cache, []) == Walked(cache, Some([]));
    assert FreshEntries(env, "r", entries, "r/a") == Some(1);
  }

  // And a file listed before is listed although Info fails for it now.
  lemma StaleFileStaysListed(matches: string -> bool)
    requires matches("a")
    ensures var nodes := map["r" := DirInfo(1, [DirEntry("a", false)]), "r/a" := FileInfo(1)];
            var failing := Env(nodes, Faults({}, {}, {"r/a"}, {}), matches);
            var env := Env(nodes, NO_FAULTS, matches);
            && DiscoverAll(failing, CacheAfter([env], ["r"]), ["r"]).found == Some([Entry("r/a", 1)])
            && FreshRoots(failing, ["r"], "r/a") == Some(0)
  {
    var nodes := map["r" := DirInfo(1, [DirEntry("a", false)]), "r/a" := FileInfo(1)];
    var failing := Env(nodes, Faults({}, {}, {"r/a"}, {}), matches);
    var env := Env(nodes, NO_FAULTS, matches);
    var entries := [DirEntry("a", false)];
    var files := [Entry("r/a", 1)];
    var none: seq<Entry> := [];
    assert Join("r", "a") == "r/a";
    assert entries[..0] == [] && ["r"][..0] == [];
    assert none + files == files && files + none == files;
    assert ScanEntries(env, map[], "r", entries) == Scan(map[], Some(files), files, []);
    assert Walk(env, map[], "r") == Walked(map["r" := Snapshot(1, files, [])], Some(files));
    assert DiscoverAll(env, map[], []) == Walked(map[], Some([]));
    var cache := map["r" := Snapshot(1, files, [])];
    assert CacheAfter([env], ["r"]) == cache by {
      assert [env][..0] == [] && CacheAfter([], ["r"]) == map[];
    }
    assert WalkSubs(failing, cache, "r", []) == Walked(cache, Some([]));
    assert Walk(failing, cache, "r") == Walked(cache, Some(files));
    assert DiscoverAll(failing, cache, []) == Walked(cache, Some([]));
    assert FreshEntries(failing, "r", entries, "r/a") == Some(0);
  }
}
