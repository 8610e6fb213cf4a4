/**
 * Admission across the real startup: the Run directories of `Admission` are those of a `Reconcile` disk, and a restart
 * is a reconciliation pass over them.
 */
module Restart {
  import A = Admission
  import AT = AdmissionTheorems
  import opened Terminal
  import opened Reconcile
  import opened ReconcileTheorems
  import opened ReconcileRuns

  /** How admission reads a terminal that reconciliation classifies. */
  function Read(c: TerminalClass): A.Terminal {
    match c
    case AbsentTerminal => A.Absent
    case CorruptTerminal => A.Invalid
    case _ => A.Trusted
  }

  /** The same directories, with the same terminals and the same submissions present. */
  ghost predicate SameDirs(dirs: map<string, A.RunDir>, d: Disk) {
    && dirs.Keys == d.runs.Keys
    && (forall r :: r in dirs ==> dirs[r].terminal == Read(ClassifyResult(d.runs[r].result, r)))
    && (forall r :: r in dirs && dirs[r].submission.Some? ==> d.runs[r].submission.DocValid?)
  }

  /** The pass goes over every directory once. */
  ghost predicate Enumerates(order: seq<string>, d: Disk) {
    Listed(d, order) && Distinct(order) && forall r :: r in d.runs ==> r in order
  }

  function Oversize(d: Disk): set<string> {
    set r | r in d.runs && !FitsRun(d, r)
  }

  /** The Runs that had no terminal before and have one after. */
  function Reached(d: Disk, d': Disk): set<string> {
    set r | r in d.runs && d.runs[r].result.NoResult? && r in d'.runs && !d'.runs[r].result.NoResult?
  }

  /** The pass as a startup: run to its end, where it listens or refuses. */
  function WholeStartup(d: Disk, order: seq<string>): A.Startup
    requires Listed(d, order)
  {
    A.Startup(Reached(d, Final(d, order)), Oversize(d), Verdict(d, order).Some?)
  }

  /** Or cut by a crash after `k` of its writes. */
  function CutStartup(d: Disk, order: seq<string>, k: nat): A.Startup
    requires Listed(d, order) && k <= |PassWrites(d, order)|
  {
    A.Startup(Reached(d, ApplyAll(d, PassWrites(d, order)[..k])), Oversize(d), true)
  }

  // ---- what a pass writes into results -----------------------------------------------

  /** A result write of a pass over `d` is the one emission of its Run, which had no terminal. */
  ghost predicate Proper(d: Disk, w: Write) {
    w.PutResult? ==>
      && w.run in d.runs && d.runs[w.run].result.NoResult? && Emits(Classify(d, w.run))
      && w.payload == Emission(d, w.run, Classify(d, w.run))
  }

  lemma RunWritesProper(d: Disk, r: string, w: Write)
    requires r in d.runs && w in RunWrites(d, r)
    ensures Proper(d, w)
  {
    hide Classify, Emission, SelectRow;
    RowWritesOwn(d, r, w);
  }

  lemma ProperEarlier(d: Disk, h: string, w: Write)
    requires h in d.runs && Proper(Settle(d, h), w) && (w.PutResult? ==> w.run != h)
    ensures Proper(d, w)
  {
    hide Classify, Emission, Emits, RunWrites;
    if w.PutResult? {
      var d1 := Settle(d, h);
      assert w.run in d.runs.Keys;
      AnotherRunsRow(d, h, w.run);
      SameEmission(d, d1, w.run, Classify(d, w.run));
      RunLeavesResult(d, w.run, h);
      ResultKept(d, RunWrites(d, h), w.run);
    }
  }

  lemma {:induction false} PassWritesProper(d: Disk, order: seq<string>, w: Write)
    requires Listed(d, order) && Distinct(order) && w in PassWrites(d, order)
    ensures Proper(d, w) && (w.PutResult? ==> w.run in order)
    decreases |order|
  {
    hide Proper, RunWrites, Refusal;
    var h := order[0];
    if w in RunWrites(d, h) {
      RunWritesProper(d, h, w);
      RowWritesOwn(d, h, w);
    } else {
      StillListed(d, Settle(d, h), order);
      PassWritesProper(Settle(d, h), order[1..], w);
      ProperEarlier(d, h, w);
    }
  }

  lemma {:induction false} ResultAfter(d: Disk, ws: seq<Write>, r: string, p: Payload)
    requires r in d.runs && (forall i :: 0 <= i < |ws| && ws[i].PutResult? && ws[i].run == r ==> ws[i].payload == p)
    ensures r in ApplyAll(d, ws).runs
    ensures ApplyAll(d, ws).runs[r].result == d.runs[r].result || ApplyAll(d, ws).runs[r].result == Object(p)
    decreases |ws|
  {
    if ws != [] {
      ResultAfter(ApplyWrite(d, ws[0]), ws[1..], r, p);
    }
  }

  lemma {:induction false} SubmissionKept(d: Disk, ws: seq<Write>, r: string)
    requires r in d.runs
    ensures r in ApplyAll(d, ws).runs && ApplyAll(d, ws).runs[r].submission == d.runs[r].submission
    decreases |ws|
  {
    if ws != [] {
      SubmissionKept(ApplyWrite(d, ws[0]), ws[1..], r);
    }
  }

  /** After any part of a pass a Run has its old result, or, if it had none, its one emission. */
  lemma PartOfPass(d: Disk, order: seq<string>, k: nat, r: string)
    requires Enumerates(order, d) && k <= |PassWrites(d, order)| && r in d.runs
    ensures var d' := ApplyAll(d, PassWrites(d, order)[..k]);
      && r in d'.runs
      && (d'.runs[r].result == d.runs[r].result
          || (d.runs[r].result.NoResult? && Emits(Classify(d, r))
              && d'.runs[r].result == Object(Emission(d, r, Classify(d, r)))))
  {
    hide Classify, Emission, Emits, PassWrites;
    var ws := PassWrites(d, order)[..k];
    forall i | 0 <= i < |ws|
      ensures Proper(d, ws[i])
    {
      assert ws[i] in PassWrites(d, order);
      PassWritesProper(d, order, ws[i]);
    }
    if d.runs[r].result.NoResult? && Emits(Classify(d, r)) {
      ResultAfter(d, ws, r, Emission(d, r, Classify(d, r)));
    } else {
      ResultKept(d, ws, r);
    }
  }

  /** How admission reads the emission: trusted exactly when it fits. */
  lemma EmissionReads(d: Disk, r: string)
    requires r in d.runs && d.runs[r].result.NoResult? && Emits(Classify(d, r))
    ensures Read(ClassifyResult(Object(Emission(d, r, Classify(d, r))), r)) == if FitsRun(d, r) then A.Trusted
        else A.Invalid
  {
    hide Classify, Emission, ClassifyResult, EmittedSize;
    EmissionClass(d, r, Classify(d, r));
  }

  lemma AbsentIff(result: Stored, r: string)
    ensures ClassifyResult(result, r) == AbsentTerminal <==> result.NoResult?
  {
    hide Trusted;
  }

  /** One directory after a startup agrees with the disk after that part of the pass. */
  lemma OneDir(dir: A.RunDir, d: Disk, d': Disk, r: string, st: A.Startup, settles: bool)
    requires r in d.runs && r in d'.runs && dir.terminal == Read(ClassifyResult(d.runs[r].result, r))
    requires d'.runs[r].result == d.runs[r].result
      || (d.runs[r].result.NoResult? && Emits(Classify(d, r))
          && d'.runs[r].result == Object(Emission(d, r, Classify(d, r))))
    requires r in st.oversize <==> !FitsRun(d, r)
    requires settles <== d.runs[r].result.NoResult? && !d'.runs[r].result.NoResult?
    requires settles && d.runs[r].result.NoResult? ==> !d'.runs[r].result.NoResult?
    ensures (if settles then A.ReconciledDir(dir, r, st) else dir).terminal
        == Read(ClassifyResult(d'.runs[r].result, r))
  {
    hide Classify, Emission, ClassifyResult, FitsRun;
    AbsentIff(d.runs[r].result, r);
    if d.runs[r].result.NoResult? && Emits(Classify(d, r)) {
      EmissionReads(d, r);
    }
  }

  /** A pass that does not refuse has met no corrupt terminal and leaves no Run without one. */
  lemma ListeningPass(d: Disk, order: seq<string>, r: string)
    requires Enumerates(order, d) && Verdict(d, order).None? && r in d.runs
    ensures ClassifyResult(d.runs[r].result, r) != CorruptTerminal
    ensures r in Final(d, order).runs && !Final(d, order).runs[r].result.NoResult?
  {
    hide Final, Verdict, Quarantines, Emission, Trusted;
    NotRefused(d, order, r);
    EveryRunIsAchieved(d, order, r);
    if !d.runs[r].result.NoResult? {
      ExistingTerminalsStand(d, order, r);
    }
  }

  lemma Listening(dirs: map<string, A.RunDir>, d: Disk, order: seq<string>)
    requires SameDirs(dirs, d) && Enumerates(order, d)
    ensures A.Listens(dirs, WholeStartup(d, order)) <==> Verdict(d, order).None?
  {
    hide Verdict, ClassifyResult, Reached, Oversize;
    if Verdict(d, order).None? {
      forall r | r in dirs
        ensures dirs[r].terminal != A.Invalid
      {
        assert r in d.runs.Keys;
        ListeningPass(d, order, r);
      }
    }
  }

  /**
   * Every pass that runs to its end is a startup: it listens exactly when that startup does, and leaves the same
   * directories.
   */
  lemma PassIsAStartup(dirs: map<string, A.RunDir>, d: Disk, order: seq<string>)
    requires SameDirs(dirs, d) && Enumerates(order, d)
    ensures A.Listens(dirs, WholeStartup(d, order)) <==> Verdict(d, order).None?
    ensures SameDirs(A.Reconciled(dirs, WholeStartup(d, order)), Final(d, order))
  {
    hide Verdict, ClassifyResult, Classify, Emission, Emits, FitsRun, PassWrites;
    Listening(dirs, d, order);
    var st, d' := WholeStartup(d, order), Final(d, order);
    var ws := PassWrites(d, order);
    assert ws[..|ws|] == ws;
    WritesKeepKeys(d, ws);
    forall r | r in dirs
      ensures r in d'.runs && A.Reconciled(dirs, st)[r].terminal == Read(ClassifyResult(d'.runs[r].result, r))
      ensures d'.runs[r].submission == d.runs[r].submission
    {
      assert r in d.runs.Keys;
      PartOfPass(d, order, |ws|, r);
      SubmissionKept(d, ws, r);
      if Verdict(d, order).None? {
        ListeningPass(d, order, r);
      }
      OneDir(dirs[r], d, d', r, st, A.Listens(dirs, st) || r in st.reached);
    }
    assert A.Reconciled(dirs, st).Keys == dirs.Keys;
  }

  /** And so is every pass cut by a crash after any of its writes. */
  lemma CutPassIsAStartup(dirs: map<string, A.RunDir>, d: Disk, order: seq<string>, k: nat)
    requires SameDirs(dirs, d) && Enumerates(order, d) && k <= |PassWrites(d, order)|
    ensures !A.Listens(dirs, CutStartup(d, order, k))
    ensures SameDirs(A.Reconciled(dirs, CutStartup(d, order, k)), ApplyAll(d, PassWrites(d, order)[..k]))
  {
    hide Verdict, ClassifyResult, Classify, Emission, Emits, FitsRun, PassWrites;
    var ws := PassWrites(d, order)[..k];
    var st, d' := CutStartup(d, order, k), ApplyAll(d, ws);
    WritesKeepKeys(d, ws);
    forall r | r in dirs
      ensures r in d'.runs && A.Reconciled(dirs, st)[r].terminal == Read(ClassifyResult(d'.runs[r].result, r))
      ensures d'.runs[r].submission == d.runs[r].submission
    {
      assert r in d.runs.Keys;
      PartOfPass(d, order, k, r);
      SubmissionKept(d, ws, r);
      OneDir(dirs[r], d, d', r, st, r in st.reached);
    }
    assert A.Reconciled(dirs, st).Keys == dirs.Keys;
  }

  // ---- the answer after a restart ------------------------------------------------------

  /**
   * A request was acknowledged, the daemon is down, and reconciliation of the directories it left does not refuse. Then
   * the daemon listens again, and the request sent again gets the same acknowledgement exactly when its Run's terminal
   * fits: a condition on the disk before the restart, and one that always holds for a Run that already has a terminal.
   */
  lemma RestartAnswersIff(e: A.Env, actions: seq<A.Action>, a: A.Ack, req: A.Request, ceiling: nat, d: Disk,
      order: seq<string>)
    requires var s := A.Run(e, A.Empty, actions);
      !s.up && a in s.acks && a.key == req.key && a.digest == req.digest && SameDirs(s.dirs, d)
    requires Enumerates(order, d) && Verdict(d, order).None?
    ensures a.run in d.runs
    ensures var s' := A.Step(e, A.Run(e, A.Empty, actions), A.Restart(ceiling, WholeStartup(d, order)));
      && s'.up && SameDirs(s'.dirs, Final(d, order))
      && (A.Resolve(e, s', req) == A.Accepted(a) <==> FitsRun(d, a.run))
      && (A.Resolve(e, s', req) == A.Untrusted <==> !FitsRun(d, a.run))
  {
    hide Verdict, ClassifyResult, FitsRun, Final, A.Run, SameDirs;
    var s := A.Run(e, A.Empty, actions);
    AT.EmptyInv(e);
    AT.RunInv(e, A.Empty, actions);
    assert AT.Matches(e, s, a);
    PassIsAStartup(s.dirs, d, order);
    AckedDir(s.dirs, d, order, a.run);
  }

  lemma AckedDir(dirs: map<string, A.RunDir>, d: Disk, order: seq<string>, r: string)
    requires SameDirs(dirs, d) && Enumerates(order, d) && Verdict(d, order).None? && r in dirs
    ensures r in d.runs
    ensures var dir := A.Reconciled(dirs, WholeStartup(d, order))[r];
      && dir.submission == dirs[r].submission
      && dir.terminal == if FitsRun(d, r) then A.Trusted else A.Invalid
  {
    hide Verdict, Emits, Emission, Final, Trusted;
    assert r in d.runs.Keys;
    Listening(dirs, d, order);
    ListeningPass(d, order, r);
  }
}
