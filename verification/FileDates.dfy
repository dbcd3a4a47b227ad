/**
 What the walker finds: the files reachable from its roots, with the modification times they had when their directory
 was last read.
 */
module FileDates {
  import opened Wrappers
  import opened Session
  import opened FileWatch

  /******* Times *******/

  // What there was when a directory was read at a modification time.
  type Sightings = (string, Time) -> map<string, Info>

  predicate Dated(seen: Sightings, d: string, t: Time, e: Entry) {
    Parent(e.path) == d && e.path in seen(d, t) && e.mtime == seen(d, t)[e.path].mtime
  }

  ghost predicate AllDated(seen: Sightings, d: string, t: Time, files: seq<Entry>) {
    forall i :: 0 <= i < |files| ==> Dated(seen, d, t, files[i])
  }

  ghost predicate CacheDated(seen: Sightings, cache: Cache) {
    forall d :: d in cache ==> AllDated(seen, d, cache[d].mtime, cache[d].files)
  }

  // An entry found has the time its path had when its directory, as it is now, was read.
  predicate DatedNow(env: Env, seen: Sightings, e: Entry) {
    var d := Parent(e.path);
    d in env.nodes && Dated(seen, d, env.nodes[d].mtime, e)
  }

  ghost predicate FoundDated(env: Env, seen: Sightings, found: Option<seq<Entry>>) {
    found.Some? ==> forall i :: 0 <= i < |found.value| ==> DatedNow(env, seen, found.value[i])
  }

  // What is read from now on is seen as it is in this call.
  ghost predicate SeenNow(env: Env, seen: Sightings, cache: Cache) {
    forall d :: d in env.nodes && !Valid(env, cache, d) ==> seen(d, env.nodes[d].mtime) == env.nodes
  }

  ghost predicate Good(env: Env, seen: Sightings, cache: Cache) {
    Descends(cache) && CacheDated(seen, cache) && SeenNow(env, seen, cache)
  }

  lemma FoundConcatDated(env: Env, seen: Sightings, a: seq<Entry>, b: Option<seq<Entry>>)
    requires FoundDated(env, seen, Some(a)) && FoundDated(env, seen, b)
    ensures FoundDated(env, seen, Prepend(a, b))
  {
  }

  lemma {:induction false} WalkDates(env: Env, seen: Sightings, cache: Cache, dir: string)
    requires WellFormed(env.nodes) && Good(env, seen, cache)
    ensures var r := Walk(env, cache, dir); Good(env, seen, r.cache) && FoundDated(env, seen, r.found)
    decreases Below(env, dir), 1, 0
  {
    if dir in env.faults.stop || dir in env.faults.lstat || dir !in env.nodes {
    } else if Valid(env, cache, dir) {
      var snap := cache[dir];
      SubsDate(env, seen, cache, dir, snap.subdirs);
      assert FoundDated(env, seen, Some(snap.files)) by {
        assert AllDated(seen, dir, snap.mtime, snap.files);
      }
      FoundConcatDated(env, seen, snap.files, WalkSubs(env, cache, dir, snap.subdirs).found);
    } else if dir in env.faults.read || env.nodes[dir].FileInfo? {
    } else {
      ScanDates(env, seen, cache, dir, env.nodes[dir].entries);
    }
  }

  lemma {:induction false} SubsDate(env: Env, seen: Sightings, cache: Cache, dir: string, subs: seq<string>)
    requires WellFormed(env.nodes) && Good(env, seen, cache) && dir in env.nodes && AllBelow(dir, subs)
    ensures var r := WalkSubs(env, cache, dir, subs); Good(env, seen, r.cache) && FoundDated(env, seen, r.found)
    decreases Below(env, dir), 0, |subs|
  {
    if subs != [] {
      var n := |subs| - 1;
      SubsDate(env, seen, cache, dir, subs[..n]);
      var before := WalkSubs(env, cache, dir, subs[..n]);
      if before.found.Some? {
        BelowShrinks(env, dir, subs[n]);
        WalkDates(env, seen, before.cache, subs[n]);
        FoundConcatDated(env, seen, before.found.value, Walk(env, before.cache, subs[n]).found);
      }
    }
  }

  ghost predicate ScanDated(env: Env, seen: Sightings, dir: string, s: Scan)
    requires dir in env.nodes
  {
    && Good(env, seen, s.cache) && FoundDated(env, seen, s.found)
    && AllDated(seen, dir, env.nodes[dir].mtime, s.files)
  }

  lemma CollectDates(env: Env, seen: Sightings, dir: string, s: Scan, name: string)
    requires dir in env.nodes && s.found.Some? && '/' !in name && ScanDated(env, seen, dir, s)
    requires seen(dir, env.nodes[dir].mtime) == env.nodes
    ensures ScanDated(env, seen, dir, Collect(env, s, name, Join(dir, name)))
  {
    ParentOfJoin(dir, name);
  }

  lemma {:induction false} ScanDates(env: Env, seen: Sightings, cache: Cache, dir: string, entries: seq<DirEntry>)
    requires WellFormed(env.nodes) && Good(env, seen, cache)
    requires dir in env.nodes && env.nodes[dir].DirInfo? && entries <= env.nodes[dir].entries
    requires seen(dir, env.nodes[dir].mtime) == env.nodes
    ensures ScanDated(env, seen, dir, ScanEntries(env, cache, dir, entries))
    decreases Below(env, dir), 0, |entries|
  {
    if entries != [] {
      var n := |entries| - 1;
      ScanDates(env, seen, cache, dir, entries[..n]);
      assert entries[n] in env.nodes[dir].entries;
      var s, path := ScanEntries(env, cache, dir, entries[..n]), Join(dir, entries[n].name);
      if s.found.Some? && path !in env.faults.stop {
        if entries[n].isDir {
          BelowShrinks(env, dir, path);
          WalkDates(env, seen, s.cache, path);
          FoundConcatDated(env, seen, s.found.value, Walk(env, s.cache, path).found);
        } else {
          CollectDates(env, seen, dir, s, entries[n].name);
        }
      }
    }
  }

  lemma {:induction false} DiscoverDates(env: Env, seen: Sightings, cache: Cache, roots: seq<string>)
    requires WellFormed(env.nodes) && Good(env, seen, cache)
    ensures var r := DiscoverAll(env, cache, roots); Good(env, seen, r.cache) && FoundDated(env, seen, r.found)
  {
    if roots != [] {
      var n := |roots| - 1;
      DiscoverDates(env, seen, cache, roots[..n]);
      var before := DiscoverAll(env, cache, roots[..n]);
      if before.found.Some? {
        WalkDates(env, seen, before.cache, roots[n]);
        FoundConcatDated(env, seen, before.found.value, DiscoverRoot(env, before.cache, roots[n]).found);
      }
    }
  }

  // A call sees the directories without a valid snapshot as they are.
  function See(seen: Sightings, env: Env, cache: Cache): Sightings {
    (d, t) => if d in env.nodes && env.nodes[d].mtime == t && !Valid(env, cache, d) then env.nodes else seen(d, t)
  }

  ghost function SeenAfter(envs: seq<Env>, roots: seq<string>): Sightings {
    if envs == [] then (_, _) => map[] else
      See(SeenAfter(envs[..|envs| - 1], roots), envs[|envs| - 1], CacheAfter(envs[..|envs| - 1], roots))
  }

  lemma SeeFits(env: Env, seen: Sightings, cache: Cache)
    requires Descends(cache) && CacheDated(seen, cache)
    ensures Good(env, See(seen, env, cache), cache)
  {
    forall d | d in cache ensures AllDated(See(seen, env, cache), d, cache[d].mtime, cache[d].files) {
      assert AllDated(seen, d, cache[d].mtime, cache[d].files);
    }
  }

  lemma {:induction false} CacheStaysDated(envs: seq<Env>, roots: seq<string>)
    requires forall i :: 0 <= i < |envs| ==> WellFormed(envs[i].nodes)
    ensures CacheDated(SeenAfter(envs, roots), CacheAfter(envs, roots))
  {
    if envs != [] {
      var n := |envs| - 1;
      CacheStaysDated(envs[..n], roots);
      SeeFits(envs[n], SeenAfter(envs[..n], roots), CacheAfter(envs[..n], roots));
      DiscoverDates(envs[n], See(SeenAfter(envs[..n], roots), envs[n], CacheAfter(envs[..n], roots)),
                    CacheAfter(envs[..n], roots), roots);
    }
  }

  // What there was when the directory was last read: in this call if it has no valid snapshot, else in an earlier one.
  ghost function LastSeen(envs: seq<Env>, env: Env, roots: seq<string>, d: string): map<string, Info> {
    if Valid(env, CacheAfter(envs, roots), d) then SeenAfter(envs, roots)(d, env.nodes[d].mtime) else env.nodes
  }

  // After any calls, every entry a call finds has the modification time its path had in the call that last read its
  // directory.
  lemma EntriesAreDated(envs: seq<Env>, env: Env, roots: seq<string>, e: Entry)
    requires WellFormed(env.nodes) && forall i :: 0 <= i < |envs| ==> WellFormed(envs[i].nodes)
    requires var found := DiscoverAll(env, CacheAfter(envs, roots), roots).found; found.Some? && e in found.value
    ensures var there := LastSeen(envs, env, roots, Parent(e.path));
            e.path in there && e.mtime == there[e.path].mtime
  {
    var seen, cache := SeenAfter(envs, roots), CacheAfter(envs, roots);
    CacheStaysDated(envs, roots);
    SeeFits(env, seen, cache);
    DiscoverDates(env, See(seen, env, cache), cache, roots);
    var found := DiscoverAll(env, cache, roots).found.value;
    var i :| 0 <= i < |found| && found[i] == e;
    assert DatedNow(env, See(seen, env, cache), found[i]);
  }

  // With an empty cache that is the time it has now.
  lemma FreshEntriesAreDated(env: Env, roots: seq<string>, e: Entry)
    requires WellFormed(env.nodes)
    requires var found := DiscoverAll(env, map[], roots).found; found.Some? && e in found.value
    ensures e.path in env.nodes && e.mtime == env.nodes[e.path].mtime
  {
    assert CacheAfter([], roots) == map[];
    EntriesAreDated([], env, roots, e);
  }

  /******* Which files *******/

  // `p` is listed in the directory as a file whose name matches.
  ghost predicate ListsFile(env: Env, dir: string, p: string) {
    && dir in env.nodes && env.nodes[dir].DirInfo?
    && exists e :: e in env.nodes[dir].entries && !e.isDir && env.matches(e.name) && Join(dir, e.name) == p
  }

  ghost predicate ListsDir(env: Env, dir: string, sub: string) {
    && dir in env.nodes && env.nodes[dir].DirInfo?
    && exists e :: e in env.nodes[dir].entries && e.isDir && Join(dir, e.name) == sub
  }

  // A way down from `dir`, each directory listed in the one before, to one that lists `p`.
  ghost predicate LeadsTo(env: Env, dirs: seq<string>, p: string) {
    && dirs != []
    && (forall i :: 0 <= i < |dirs| - 1 ==> ListsDir(env, dirs[i], dirs[i + 1]))
    && ListsFile(env, dirs[|dirs| - 1], p)
  }

  ghost predicate Reached(env: Env, dir: string, p: string) {
    exists dirs :: LeadsTo(env, dirs, p) && dirs[0] == dir
  }

  // One step of the way.
  lemma ReachedStep(env: Env, dir: string, p: string)
    ensures Reached(env, dir, p) <==>
            ListsFile(env, dir, p) || exists sub :: ListsDir(env, dir, sub) && Reached(env, sub, p)
  {
    if dirs :| LeadsTo(env, dirs, p) && dirs[0] == dir {
      if |dirs| > 1 {
        var rest := dirs[1..];
        assert ListsDir(env, dirs[0], dirs[0 + 1]);
        assert forall i :: 0 <= i < |rest| - 1 ==> ListsDir(env, rest[i], rest[i + 1]) by {
          forall i | 0 <= i < |rest| - 1 ensures ListsDir(env, rest[i], rest[i + 1]) {
            assert ListsDir(env, dirs[i + 1], dirs[i + 1 + 1]);
          }
        }
        assert LeadsTo(env, rest, p);
      }
    }
    if ListsFile(env, dir, p) {
      assert LeadsTo(env, [dir], p);
    }
    if sub :| ListsDir(env, dir, sub) && Reached(env, sub, p) {
      var rest :| LeadsTo(env, rest, p) && rest[0] == sub;
      var dirs := [dir] + rest;
      forall i | 0 <= i < |dirs| - 1 ensures ListsDir(env, dirs[i], dirs[i + 1]) {
        if i > 0 {
          assert ListsDir(env, rest[i - 1], rest[i - 1 + 1]);
        }
      }
      assert LeadsTo(env, dirs, p);
    }
  }

  // Some of `entries` is the file, or a directory from which it is reached.
  ghost predicate ReachedAmong(env: Env, dir: string, entries: seq<DirEntry>, p: string) {
    exists e :: e in entries
      && if e.isDir then Reached(env, Join(dir, e.name), p) else env.matches(e.name) && Join(dir, e.name) == p
  }

  lemma {:induction false} FreshIsReached(env: Env, dir: string, p: string)
    requires WellFormed(env.nodes) && env.faults.info == {} && Fresh(env, dir, p).Some?
    ensures Fresh(env, dir, p).value > 0 <==> Reached(env, dir, p)
    decreases Below(env, dir), 1, 0
  {
    ReachedStep(env, dir, p);
    if dir in env.nodes && env.nodes[dir].DirInfo? {
      var entries := env.nodes[dir].entries;
      FreshEntriesAreReached(env, dir, entries, p);
      if e :| e in entries && !e.isDir && env.matches(e.name) && Join(dir, e.name) == p {
        assert ReachedAmong(env, dir, entries, p);
      }
      if sub :| ListsDir(env, dir, sub) && Reached(env, sub, p) {
        var e :| e in entries && e.isDir && Join(dir, e.name) == sub;
        assert ReachedAmong(env, dir, entries, p);
      }
    }
  }

  lemma {:induction false} FreshEntriesAreReached(env: Env, dir: string, entries: seq<DirEntry>, p: string)
    requires WellFormed(env.nodes) && env.faults.info == {} && dir in env.nodes && env.nodes[dir].DirInfo?
    requires entries <= env.nodes[dir].entries && FreshEntries(env, dir, entries, p).Some?
    ensures FreshEntries(env, dir, entries, p).value > 0 <==> ReachedAmong(env, dir, entries, p)
    decreases Below(env, dir), 0, |entries|
  {
    if entries != [] {
      var n := |entries| - 1;
      var e, path := entries[n], Join(dir, entries[n].name);
      FreshEntriesAreReached(env, dir, entries[..n], p);
      assert e in env.nodes[dir].entries;
      if e.isDir {
        BelowShrinks(env, dir, path);
        FreshIsReached(env, path, p);
      }
      assert forall x :: x in entries <==> x in entries[..n] || x == e;
    }
  }

  // A root that is not there or is a file leads nowhere.
  lemma RootIsReached(env: Env, root: string, p: string)
    requires WellFormed(env.nodes) && env.faults.info == {} && FreshRoot(env, root, p).Some?
    ensures FreshRoot(env, root, p).value > 0 <==> Reached(env, root, p)
  {
    if root in env.nodes && env.nodes[root].DirInfo? {
      FreshIsReached(env, root, p);
    } else {
      ReachedStep(env, root, p);
    }
  }

  lemma {:induction false} RootsAreReached(env: Env, roots: seq<string>, p: string)
    requires WellFormed(env.nodes) && env.faults.info == {} && FreshRoots(env, roots, p).Some?
    ensures FreshRoots(env, roots, p).value > 0 <==> exists root :: root in roots && Reached(env, root, p)
  {
    if roots != [] {
      var n := |roots| - 1;
      RootsAreReached(env, roots[..n], p);
      RootIsReached(env, roots[n], p);
      assert forall root :: root in roots <==> root in roots[..n] || root == roots[n];
    }
  }

  // Reaching is a matter of what there is and not of what fails.
  lemma ReachedPlain(env: Env, root: string, p: string)
    ensures Reached(Plain(env), root, p) <==> Reached(env, root, p)
  {
    forall dirs ensures LeadsTo(Plain(env), dirs, p) <==> LeadsTo(env, dirs, p) {
      forall a, b ensures ListsDir(Plain(env), a, b) <==> ListsDir(env, a, b) {
      }
      forall a ensures ListsFile(Plain(env), a, p) <==> ListsFile(env, a, p) {
      }
    }
  }

  // After any calls, a call that a fresh walk would finish finds exactly the matching files reachable from its roots,
  // but for the hidden ones.
  lemma FoundIsReached(envs: seq<Env>, env: Env, listing: Listing, roots: seq<string>, p: string)
    requires SeesAll(envs, env.matches, listing) && Sees(env, listing) && FreshRoots(env, roots, p).Some?
    ensures var found := DiscoverAll(env, CacheAfter(envs, roots), roots).found;
            && found.Some?
            && (p in PathsOf(found.value)
                <==> !HiddenNow(envs, env, roots, p) && exists root :: root in roots && Reached(env, root, p))
  {
    CacheAgreement(envs, env, listing, roots, p);
    RootsAreReached(Plain(env), roots, p);
    forall root ensures Reached(Plain(env), root, p) <==> Reached(env, root, p) {
      ReachedPlain(env, root, p);
    }
    TimesIsMultiset(PathsOf(DiscoverAll(env, CacheAfter(envs, roots), roots).found.value), p);
  }
}
