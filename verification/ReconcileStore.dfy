/** Reconciliation as the code runs it: one Run directory after another, each write made in place. */
module ReconcileStore {
  import opened Wrappers
  import opened Terminal
  import opened Reconcile
  import opened ReconcileTheorems
  import opened ReconcileRuns

  class Store {
    var disk: Disk

    constructor (d: Disk)
      ensures disk == d
    {
      disk := d;
    }

    method FenceAndQuarantine(sid: string, ev: Evidence)
      requires sid in disk.sessions
      modifies this
      ensures disk == ApplyAll(old(disk), SessionWrites(old(disk).sessions[sid], sid, ev))
      ensures Converged(disk, sid)
    {
      ghost var d := disk;
      ghost var ws := SessionWrites(d.sessions[sid], sid, ev);
      if disk.sessions[sid].evidence.Some? {
        if disk.sessions[sid].fence.Some? {
          disk := ApplyWrite(disk, DropFence(sid));
          ApplyOne(d, ws[0]);
        }
        return;
      }
      disk := ApplyWrite(disk, PutFence(sid, ev));
      disk := ApplyWrite(disk, PutEvidence(sid, ev));
      disk := ApplyWrite(disk, DropFence(sid));
      ApplyThree(d, ws[0], ws[1], ws[2]);
    }

    method EnsureTerminalProgress(r: string)
      requires r in disk.runs
      modifies this
      ensures disk == ApplyAll(old(disk), ProgressWrites(old(disk).runs[r], r))
    {
      var existing := disk.runs[r].progress;
      if existing.Recorded? && existing.state == Some(UNKNOWN_STATE) {
        return;
      }
      var lastSeq, eventCount := 0, 0;
      if existing.Recorded? {
        if existing.lastSeq.Some? {
          lastSeq := existing.lastSeq.value;
        }
        eventCount := if existing.eventCount.Some? then existing.eventCount.value else lastSeq;
      }
      ApplyOne(disk, PutProgress(r, UnknownProgress(existing)));
      disk := ApplyWrite(disk, PutProgress(r, Recorded(Some(UNKNOWN_STATE), Some(lastSeq), Some(eventCount))));
    }

    method WriteTerminalResult(r: string, payload: Payload)
      requires r in disk.runs
      modifies this
      ensures disk == ApplyAll(old(disk), if old(disk).runs[r].result.NoResult? then [PutResult(r, payload)] else [])
    {
      if !disk.runs[r].result.NoResult? {
        return;
      }
      ApplyOne(disk, PutResult(r, payload));
      disk := ApplyWrite(disk, PutResult(r, payload));
    }

    /** One Run: classified whole before any write, then its row applied; a refusal comes after its own writes. */
    method ReconcileRun(r: string) returns (refusal: Option<int>)
      requires r in disk.runs
      modifies this
      ensures disk == Settle(old(disk), r) && refusal == Refusal(old(disk), r)
    {
      hide Emission, ClassifyResult, ApplyWrite, SessionWrites, ProgressWrites, SelectRow, Classify;
      ghost var d := disk;
      var f := Classify(disk, r);
      var row := SelectRow(f);
      ghost var s, p, t := RunSessionWrites(d, r, f), RunProgressWrites(d, r, f), RunResultWrites(d, r, f);
      var q := Quarantines(f, r);
      if q.Some? && q.value.0 in disk.sessions {
        FenceAndQuarantine(q.value.0, q.value.1);
      }
      WritesKeepKeys(d, s);
      assert r in disk.runs.Keys;
      SessionSettles(d, r);
      ghost var d1 := disk;
      if row.outcome == UnknownQuarantine {
        SameDoc(d, r, f);
        EnsureTerminalProgress(r);
      }
      WritesKeepKeys(d1, p);
      assert r in disk.runs.Keys;
      AfterProgress(d1, r);
      if Emits(f) {
        SameEmission(d, disk, r, f);
        WriteTerminalResult(r, Emission(disk, r, f));
      }
      ApplySplit(d, s, p);
      ApplySplit(d, s + p, t);
      return if row.outcome == RefuseToListen then Some(row.number) else None;
    }

    /** The startup loop over the directories in order. */
    method Reconcile(order: seq<string>) returns (refusal: Option<int>)
      requires Listed(disk, order)
      modifies this
      ensures refusal == Verdict(old(disk), order) && disk == Final(old(disk), order)
    {
      hide Settle, Refusal, Final, PassWrites;
      refusal := None;
      ghost var d := disk;
      var i := 0;
      assert order[0..] == order;
      while i < |order|
        invariant 0 <= i <= |order| && refusal.None? && Listed(disk, order[i..])
        invariant Verdict(disk, order[i..]) == Verdict(d, order) && Final(disk, order[i..]) == Final(d, order)
      {
        ghost var before := disk;
        assert order[i..][0] == order[i] && order[i..][1..] == order[i + 1..];
        Unfolds(before, order[i..]);
        refusal := ReconcileRun(order[i]);
        if refusal.Some? {
          return;
        }
        i := i + 1;
      }
      Unfolds(disk, order[i..]);
    }
  }

  lemma SameDoc(d: Disk, r: string, f: Facts)
    requires r in d.runs
    ensures var d' := ApplyAll(d, RunSessionWrites(d, r, f)); d'.runs == d.runs
  {
    hide Quarantines;
    var s := RunSessionWrites(d, r, f);
    assert s[..|s|] == s;
    SessionResumes(d, r, f, |s|);
  }

  lemma Unfolds(d: Disk, order: seq<string>)
    requires Listed(d, order)
    ensures order == [] ==> Final(d, order) == d && Verdict(d, order).None?
    ensures order != [] && Refusal(d, order[0]).Some? ==>
      Final(d, order) == Settle(d, order[0]) && Verdict(d, order) == Refusal(d, order[0])
    ensures order != [] && Refusal(d, order[0]).None? ==>
      var d1 := Settle(d, order[0]);
      && Listed(d1, order[1..])
      && Final(d, order) == Final(d1, order[1..]) && Verdict(d, order) == Verdict(d1, order[1..])
  {
    hide RunWrites, Refusal, ApplyWrite;
    if order != [] && Refusal(d, order[0]).None? {
      FinalUnfolds(d, order);
    }
  }
}
