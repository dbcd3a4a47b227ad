/**
 Subagent completion across batches: whichever way the records of a file fall into reads, with the
 parent map handed on from read to read, the same subagents are reported completed.
 */
module ClaudeCompletion {
  import opened Session
  import opened Claude

  /******* What completion should mean *******/

  // A progress record of subagent `t`, started by tool use `p`.
  predicate Reports(rec: Record, p: string, t: string) {
    rec.Record? && rec.kind == "progress" && rec.toolUseID == t && t != "" && rec.parentToolUseID == p
  }

  predicate IsResult(block: Block, p: string) {
    block.kind == "tool_result" && block.toolUseID == p && p != ""
  }

  // A user turn that holds the result of tool use `p`.
  ghost predicate Returns(rec: Record, p: string) {
    IsUserTurn(rec) && exists k :: 0 <= k < |rec.message.value.content| && IsResult(rec.message.value.content[k], p)
  }

  ghost predicate Finishes(launch: Record, result: Record, t: string) {
    launch.Record? && Reports(launch, launch.parentToolUseID, t) && Returns(result, launch.parentToolUseID)
  }

  // The tool use that started `t` returned after `t` had reported.
  ghost predicate Finished(all: seq<Record>, t: string) {
    FinishedSince(all, 0, t)
  }

  // ... in the records from `k` on.
  ghost predicate FinishedSince(all: seq<Record>, k: nat, t: string) {
    exists i, j :: 0 <= i < j < |all| && k <= j && Finishes(all[i], all[j], t)
  }

  ghost predicate FinishedNow(all: seq<Record>, rec: Record, t: string) {
    exists i :: 0 <= i < |all| && Finishes(all[i], rec, t)
  }

  ghost predicate Reported(all: seq<Record>, p: string, t: string) {
    exists i :: 0 <= i < |all| && Reports(all[i], p, t)
  }

  predicate IsProgress(rec: Record) {
    rec.Record? && rec.kind == "progress" && rec.toolUseID != ""
  }

  // Every progress record is agent progress, and parents and subagents pair one to one.
  ghost predicate Paired(all: seq<Record>) {
    && (forall i :: 0 <= i < |all| && IsProgress(all[i]) ==> IsAgent(all[i]))
    && (forall i, j :: 0 <= i < |all| && 0 <= j < |all| && IsProgress(all[i]) && IsProgress(all[j]) ==>
         Consistent(all[i], all[j]))
  }

  predicate Consistent(a: Record, b: Record)
    requires a.Record? && b.Record?
  {
    && (a.toolUseID == b.toolUseID ==> a.parentToolUseID == b.parentToolUseID)
    && (a.parentToolUseID == b.parentToolUseID != "" ==> a.toolUseID == b.toolUseID)
  }

  lemma OneParent(all: seq<Record>, p: string, p': string, t: string)
    requires Paired(all) && Reported(all, p, t) && Reported(all, p', t)
    ensures p == p'
  {
    var i :| 0 <= i < |all| && Reports(all[i], p, t);
    var j :| 0 <= j < |all| && Reports(all[j], p', t);
    assert Consistent(all[i], all[j]);
  }

  lemma OneSubagent(all: seq<Record>, p: string, t: string, t': string)
    requires Paired(all) && p != "" && Reported(all, p, t) && Reported(all, p, t')
    ensures t == t'
  {
    var i :| 0 <= i < |all| && Reports(all[i], p, t);
    var j :| 0 <= j < |all| && Reports(all[j], p, t');
    assert Consistent(all[i], all[j]);
  }

  lemma PairedPrefix(all: seq<Record>, rec: Record)
    requires Paired(all + [rec])
    ensures Paired(all)
  {
    forall i | 0 <= i < |all| ensures all[i] == (all + [rec])[i] {
    }
    forall i, j | 0 <= i < |all| && 0 <= j < |all| && IsProgress(all[i]) && IsProgress(all[j])
      ensures Consistent(all[i], all[j])
    {
      assert Consistent((all + [rec])[i], (all + [rec])[j]);
    }
  }

  lemma ReportedMore(all: seq<Record>, rec: Record, p: string, t: string)
    ensures Reported(all + [rec], p, t) <==> Reported(all, p, t) || Reports(rec, p, t)
  {
    var more := all + [rec];
    if Reported(all, p, t) {
      var i :| 0 <= i < |all| && Reports(all[i], p, t);
      assert Reports(more[i], p, t);
    }
    if Reports(rec, p, t) {
      assert Reports(more[|all|], p, t);
    }
  }

  lemma FinishedMore(all: seq<Record>, k: nat, rec: Record, t: string)
    requires k <= |all|
    ensures FinishedSince(all + [rec], k, t) <==> FinishedSince(all, k, t) || FinishedNow(all, rec, t)
  {
    var more := all + [rec];
    if FinishedSince(all, k, t) {
      var i, j :| 0 <= i < j < |all| && k <= j && Finishes(all[i], all[j], t);
      assert Finishes(more[i], more[j], t);
    }
    if FinishedNow(all, rec, t) {
      var i :| 0 <= i < |all| && Finishes(all[i], rec, t);
      assert Finishes(more[i], more[|all|], t);
    }
    if FinishedSince(more, k, t) {
      var i, j :| 0 <= i < j < |more| && k <= j && Finishes(more[i], more[j], t);
      assert more[i] == all[i];
      assert j < |all| ==> more[j] == all[j];
    }
  }

  /******* One batch *******/

  // `m` pairs exactly the reported parents with their subagents.
  ghost predicate Knows(all: seq<Record>, m: Lookup) {
    && (forall p :: p in m ==> p != "" && Reported(all, p, m[p]))
    && (forall p, t :: p != "" && Reported(all, p, t) ==> p in m && m[p] == t)
  }

  ghost predicate SubsReported(all: seq<Record>, subs: map<string, Subagent>) {
    forall id :: id in subs ==> Reported(all, subs[id].parent, id)
  }

  ghost predicate SubsComplete(all: seq<Record>, k: nat, subs: map<string, Subagent>) {
    forall i :: k <= i < |all| && IsProgress(all[i]) ==> all[i].toolUseID in subs
  }

  predicate Done(subs: map<string, Subagent>, t: string) {
    t in subs && subs[t].completed
  }

  ghost predicate DoneIsFinished(all: seq<Record>, k: nat, subs: map<string, Subagent>) {
    forall t :: Done(subs, t) <==> FinishedSince(all, k, t)
  }

  // A batch that started after the first `k` records and has come to the end of `all`.
  ghost predicate Tracks(all: seq<Record>, k: nat, b: Batch) {
    && k <= |all|
    && Knows(all, b.parents)
    && SubsReported(all, b.subs)
    && SubsComplete(all, k, b.subs)
    && DoneIsFinished(all, k, b.subs)
  }

  lemma LookupKnows(all: seq<Record>, subs: map<string, Subagent>, known: Lookup, l: Lookup)
    requires Paired(all) && Knows(all, known) && SubsReported(all, subs) && LookupOk(subs, known, l)
    ensures Knows(all, l)
  {
    forall p | p in l ensures p != "" && Reported(all, p, l[p]) {
      assert Names(subs, l[p], p) || (p in known && known[p] == l[p]);
    }
    forall p, t | p != "" && Reported(all, p, t) ensures p in l && l[p] == t {
      assert p in known;
      OneSubagent(all, p, t, l[p]);
    }
  }

  // The blocks that complete `id`.
  ghost predicate Hits(blocks: seq<Block>, lookup: Lookup, id: string) {
    exists k :: 0 <= k < |blocks| && HitBy(blocks[k], lookup, id)
  }

  predicate HitBy(block: Block, lookup: Lookup, id: string) {
    block.kind == "tool_result" && block.toolUseID != "" && block.toolUseID in lookup && lookup[block.toolUseID] == id
  }

  lemma HitsMore(blocks: seq<Block>, lookup: Lookup, id: string)
    requires blocks != []
    ensures var n := |blocks| - 1;
            Hits(blocks, lookup, id) <==> Hits(blocks[..n], lookup, id) || HitBy(blocks[n], lookup, id)
  {
    var n := |blocks| - 1;
    if Hits(blocks[..n], lookup, id) {
      var k :| 0 <= k < n && HitBy(blocks[..n][k], lookup, id);
      assert HitBy(blocks[k], lookup, id);
    }
    if Hits(blocks, lookup, id) {
      var k :| 0 <= k < |blocks| && HitBy(blocks[k], lookup, id);
      assert k < n ==> HitBy(blocks[..n][k], lookup, id);
    }
  }

  lemma {:induction false} CompleteIs(subs: map<string, Subagent>, blocks: seq<Block>, lookup: Lookup, at: Time,
                                      id: string)
    ensures var s := Complete(subs, blocks, lookup, at);
            && (id in s <==> id in subs || Hits(blocks, lookup, id))
            && (Done(s, id) <==> Done(subs, id) || Hits(blocks, lookup, id))
            && (id in s ==>
                  if id in subs then s[id].parent == subs[id].parent
                  else s[id].parent in lookup && lookup[s[id].parent] == id)
  {
    if blocks == [] {
      assert Complete(subs, blocks, lookup, at) == subs;
    } else {
      CompleteIs(subs, blocks[..|blocks| - 1], lookup, at, id);
      HitsMore(blocks, lookup, id);
    }
  }

  lemma UserTracks(all: seq<Record>, k: nat, b: Batch, rec: Record, lookup: Lookup)
    requires Paired(all) && Tracks(all, k, b) && IsUserTurn(rec) && LookupOk(b.subs, b.parents, lookup)
    ensures Tracks(all + [rec], k, AfterRecord(b, rec, lookup))
  {
    var blocks := rec.message.value.content;
    var b' := AfterRecord(b, rec, lookup);
    var at := Noted(b.meta, rec).lastActivityAt;
    assert b'.parents == b.parents && b'.subs == Complete(b.subs, blocks, lookup, at);
    LookupKnows(all, b.subs, b.parents, lookup);
    forall p, t ensures Reported(all + [rec], p, t) <==> Reported(all, p, t) {
      ReportedMore(all, rec, p, t);
    }
    forall id | id in b'.subs ensures Reported(all, b'.subs[id].parent, id) {
      CompleteIs(b.subs, blocks, lookup, at, id);
    }
    forall i | k <= i < |all| + 1 && IsProgress((all + [rec])[i]) ensures (all + [rec])[i].toolUseID in b'.subs {
      assert (all + [rec])[i] == all[i];
      CompleteIs(b.subs, blocks, lookup, at, all[i].toolUseID);
    }
    forall t ensures Done(b'.subs, t) <==> FinishedSince(all + [rec], k, t) {
      CompleteIs(b.subs, blocks, lookup, at, t);
      FinishedMore(all, k, rec, t);
      HitsAreResults(all, rec, lookup, t);
    }
  }

  lemma HitsAreResults(all: seq<Record>, rec: Record, lookup: Lookup, t: string)
    requires Knows(all, lookup) && IsUserTurn(rec)
    ensures Hits(rec.message.value.content, lookup, t) <==> FinishedNow(all, rec, t)
  {
    var blocks := rec.message.value.content;
    if Hits(blocks, lookup, t) {
      var k :| 0 <= k < |blocks| && HitBy(blocks[k], lookup, t);
      var p := blocks[k].toolUseID;
      assert IsResult(blocks[k], p);
      assert Reported(all, p, t);
      var i :| 0 <= i < |all| && Reports(all[i], p, t);
      assert Finishes(all[i], rec, t);
    }
    if FinishedNow(all, rec, t) {
      var i :| 0 <= i < |all| && Finishes(all[i], rec, t);
      var p := all[i].parentToolUseID;
      var k :| 0 <= k < |blocks| && IsResult(blocks[k], p);
      assert Reported(all, p, t);
      assert HitBy(blocks[k], lookup, t);
    }
  }

  lemma NotUserFinishesNothing(all: seq<Record>, rec: Record)
    requires !IsUserTurn(rec)
    ensures forall t :: !FinishedNow(all, rec, t)
  {
  }

  // What a progress record of an agent does to the maps.
  lemma ProgressIs(b: Batch, rec: Record, lookup: Lookup, sub: Subagent)
    requires IsProgress(rec) && IsAgent(rec)
    requires sub == if rec.toolUseID in b.subs then b.subs[rec.toolUseID] else NewSubagent(rec)
    ensures AfterRecord(b, rec, lookup).subs == b.subs[rec.toolUseID := WithProgress(sub, rec)]
  {
  }

  lemma ProgressShape(b: Batch, rec: Record, lookup: Lookup)
    requires IsProgress(rec) && IsAgent(rec)
    ensures var b', p, t := AfterRecord(b, rec, lookup), rec.parentToolUseID, rec.toolUseID;
            && b'.subs.Keys == b.subs.Keys + {t}
            && (forall id :: id in b.subs ==> b'.subs[id].parent == b.subs[id].parent)
            && (t !in b.subs ==> b'.subs[t].parent == p)
            && (forall id :: Done(b'.subs, id) <==> Done(b.subs, id))
            && b'.parents == if t in b.subs || p == "" then b.parents else b.parents[p := t]
  {
    var sub := if rec.toolUseID in b.subs then b.subs[rec.toolUseID] else NewSubagent(rec);
    ProgressKeeps(sub, rec);
    ProgressIs(b, rec, lookup, sub);
  }

  lemma ProgressKeeps(sub: Subagent, rec: Record)
    requires rec.Record?
    ensures var s := WithProgress(sub, rec); s.parent == sub.parent && s.completed == sub.completed
  {
  }

  lemma ProgressKnows(all: seq<Record>, rec: Record, m: Lookup, m': Lookup)
    requires Paired(all + [rec]) && Knows(all, m) && IsProgress(rec)
    requires m' == m[rec.parentToolUseID := rec.toolUseID]
          || (m' == m && (rec.parentToolUseID == "" || Reported(all, rec.parentToolUseID, rec.toolUseID)))
    requires rec.parentToolUseID == "" ==> m' == m
    ensures Knows(all + [rec], m')
  {
    var more, p0, t0 := all + [rec], rec.parentToolUseID, rec.toolUseID;
    forall p | p in m' ensures p != "" && Reported(more, p, m'[p]) {
      ReportedMore(all, rec, p, m'[p]);
    }
    forall p, t | p != "" && Reported(more, p, t) ensures p in m' && m'[p] == t {
      ReportedMore(all, rec, p, t);
      ReportedMore(all, rec, p0, t0);
      if p == p0 {
        OneSubagent(more, p, t, t0);
      }
    }
  }

  lemma CompleteMore(all: seq<Record>, k: nat, rec: Record, subs: map<string, Subagent>, subs': map<string, Subagent>)
    requires SubsComplete(all, k, subs) && subs.Keys <= subs'.Keys
    requires IsProgress(rec) ==> rec.toolUseID in subs'
    ensures SubsComplete(all + [rec], k, subs')
  {
    var more := all + [rec];
    forall i | k <= i < |more| && IsProgress(more[i]) ensures more[i].toolUseID in subs' {
      assert i < |all| ==> more[i] == all[i];
    }
  }

  lemma ProgressTracks(all: seq<Record>, k: nat, b: Batch, rec: Record, lookup: Lookup)
    requires Paired(all + [rec]) && Tracks(all, k, b) && IsProgress(rec)
    ensures Tracks(all + [rec], k, AfterRecord(b, rec, lookup))
  {
    var more, p0, t0 := all + [rec], rec.parentToolUseID, rec.toolUseID;
    var b' := AfterRecord(b, rec, lookup);
    assert more[|all|] == rec && IsAgent(rec);
    ProgressShape(b, rec, lookup);
    ReportedMore(all, rec, p0, t0);
    if t0 in b.subs {
      ReportedMore(all, rec, b.subs[t0].parent, t0);
      OneParent(more, p0, b.subs[t0].parent, t0);
    }
    ProgressKnows(all, rec, b.parents, b'.parents);
    forall id | id in b'.subs ensures Reported(more, b'.subs[id].parent, id) {
      ReportedMore(all, rec, b'.subs[id].parent, id);
    }
    CompleteMore(all, k, rec, b.subs, b'.subs);
    NotUserFinishesNothing(all, rec);
    forall t ensures Done(b'.subs, t) <==> FinishedSince(more, k, t) {
      FinishedMore(all, k, rec, t);
    }
  }

  lemma OtherTracks(all: seq<Record>, k: nat, b: Batch, rec: Record, lookup: Lookup)
    requires Tracks(all, k, b) && !IsProgress(rec) && !IsUserTurn(rec)
    ensures Tracks(all + [rec], k, AfterRecord(b, rec, lookup))
  {
    var more := all + [rec];
    var b' := AfterRecord(b, rec, lookup);
    assert b'.subs == b.subs && b'.parents == b.parents;
    forall p, t ensures Reported(more, p, t) <==> Reported(all, p, t) {
      ReportedMore(all, rec, p, t);
    }
    CompleteMore(all, k, rec, b.subs, b'.subs);
    NotUserFinishesNothing(all, rec);
    forall t ensures Done(b'.subs, t) <==> FinishedSince(more, k, t) {
      FinishedMore(all, k, rec, t);
    }
  }

  function RecordsOf(lines: seq<Line>): seq<Record> {
    if lines == [] then [] else RecordsOf(lines[..|lines| - 1]) + [lines[|lines| - 1].rec]
  }

  lemma {:induction false} BatchTracks(pre: seq<Record>, known: Lookup, lines: seq<Line>)
    requires Knows(pre, known) && BatchOk(known, lines) && Paired(pre + RecordsOf(lines))
    ensures Tracks(pre + RecordsOf(lines), |pre|, ParseBatch(known, lines))
  {
    if lines == [] {
      assert pre + RecordsOf(lines) == pre;
    } else {
      var n := |lines| - 1;
      var all, rec, lookup := pre + RecordsOf(lines[..n]), lines[n].rec, lines[n].lookup;
      assert pre + RecordsOf(lines) == all + [rec];
      PairedPrefix(all, rec);
      BatchTracks(pre, known, lines[..n]);
      var b := ParseBatch(known, lines[..n]);
      if IsUserTurn(rec) {
        UserTracks(all, |pre|, b, rec, lookup);
      } else if IsProgress(rec) {
        ProgressTracks(all, |pre|, b, rec, lookup);
      } else {
        OtherTracks(all, |pre|, b, rec, lookup);
      }
    }
  }

  /******* Batches with the parent map threaded through *******/

  // The records of one read, and the parent links saved after it.
  datatype Part = Part(lines: seq<Line>, links: Lookup)

  function KnownAfter(rs: seq<Part>): Lookup {
    if rs == [] then map[] else KnownAfter(rs[..|rs| - 1]) + rs[|rs| - 1].links
  }

  function LastBatch(rs: seq<Part>): Batch
    requires rs != []
  {
    ParseBatch(KnownAfter(rs[..|rs| - 1]), rs[|rs| - 1].lines)
  }

  ghost predicate ReadsOk(rs: seq<Part>) {
    rs != [] ==>
      && ReadsOk(rs[..|rs| - 1])
      && BatchOk(KnownAfter(rs[..|rs| - 1]), rs[|rs| - 1].lines)
      && LookupOk(LastBatch(rs).subs, map[], rs[|rs| - 1].links)
  }

  function AllRecords(rs: seq<Part>): seq<Record> {
    if rs == [] then [] else AllRecords(rs[..|rs| - 1]) + RecordsOf(rs[|rs| - 1].lines)
  }

  // The subagents some read reported as completed.
  function Completed(rs: seq<Part>): set<string> {
    if rs == [] then {} else
      var b := LastBatch(rs);
      Completed(rs[..|rs| - 1]) + set id | id in b.subs && b.subs[id].completed
  }

  lemma LinksKnow(pre: seq<Record>, all: seq<Record>, known: Lookup, b: Batch, links: Lookup)
    requires Paired(all) && pre <= all && Knows(pre, known) && Tracks(all, |pre|, b) && LookupOk(b.subs, map[], links)
    ensures Knows(all, known + links)
  {
    var m := known + links;
    forall p | p in m ensures p != "" && Reported(all, p, m[p]) {
      if p in links {
        assert Names(b.subs, links[p], p);
      } else {
        ReportedPrefix(pre, all, p, m[p]);
      }
    }
    forall p, t | p != "" && Reported(all, p, t) ensures p in m && m[p] == t {
      var i :| 0 <= i < |all| && Reports(all[i], p, t);
      if i < |pre| {
        assert Reports(pre[i], p, t);
        assert Reported(pre, p, t);
        assert p in known;
      } else {
        assert IsProgress(all[i]) && t in b.subs;
        OneParent(all, p, b.subs[t].parent, t);
      }
      OneSubagent(all, p, t, m[p]);
    }
  }

  lemma ReportedPrefix(pre: seq<Record>, all: seq<Record>, p: string, t: string)
    requires pre <= all && Reported(pre, p, t)
    ensures Reported(all, p, t)
  {
    var i :| 0 <= i < |pre| && Reports(pre[i], p, t);
    assert Reports(all[i], p, t);
  }

  lemma {:induction false} PairedBefore(pre: seq<Record>, more: seq<Record>)
    requires Paired(pre + more)
    ensures Paired(pre)
  {
    if more == [] {
      assert pre + more == pre;
    } else {
      var n := |more| - 1;
      assert pre + more == (pre + more[..n]) + [more[n]];
      PairedPrefix(pre + more[..n], more[n]);
      PairedBefore(pre, more[..n]);
    }
  }

  // Finished in the records before `pre` ends, or in those after.
  lemma FinishedSplits(pre: seq<Record>, more: seq<Record>, t: string)
    ensures Finished(pre + more, t) <==> Finished(pre, t) || FinishedSince(pre + more, |pre|, t)
  {
    var all := pre + more;
    if Finished(pre, t) {
      var i, j :| 0 <= i < j < |pre| && Finishes(pre[i], pre[j], t);
      assert Finishes(all[i], all[j], t);
    }
    if Finished(all, t) {
      var i, j :| 0 <= i < j < |all| && Finishes(all[i], all[j], t);
      if j < |pre| {
        assert Finishes(pre[i], pre[j], t);
      }
    }
  }

  lemma {:induction false} ReadsTrack(rs: seq<Part>, t: string)
    requires ReadsOk(rs) && Paired(AllRecords(rs))
    ensures Knows(AllRecords(rs), KnownAfter(rs))
    ensures t in Completed(rs) <==> Finished(AllRecords(rs), t)
  {
    if rs != [] {
      var before, last := rs[..|rs| - 1], rs[|rs| - 1];
      var pre, recs := AllRecords(before), RecordsOf(last.lines);
      PairedBefore(pre, recs);
      ReadsTrack(before, t);
      BatchTracks(pre, KnownAfter(before), last.lines);
      LinksKnow(pre, pre + recs, KnownAfter(before), LastBatch(rs), last.links);
      FinishedSplits(pre, recs, t);
      assert t in Completed(rs) <==> t in Completed(before) || Done(LastBatch(rs).subs, t);
    } else {
      assert AllRecords(rs) == [];
    }
  }

  // For every split of the records into reads, the subagents completed in some read are exactly those whose
  // tool use returned after they had reported.
  lemma CompletionIsFinished(rs: seq<Part>, t: string)
    requires ReadsOk(rs) && Paired(AllRecords(rs))
    ensures t in Completed(rs) <==> Finished(AllRecords(rs), t)
  {
    ReadsTrack(rs, t);
  }

  // So any two splits of the same records, one of which may be the whole file at once, agree.
  lemma CompletionIgnoresBatching(rs: seq<Part>, rs': seq<Part>)
    requires ReadsOk(rs) && ReadsOk(rs') && AllRecords(rs) == AllRecords(rs') && Paired(AllRecords(rs))
    ensures Completed(rs) == Completed(rs')
  {
    forall t ensures t in Completed(rs) <==> t in Completed(rs') {
      CompletionIsFinished(rs, t);
      CompletionIsFinished(rs', t);
    }
  }
}
