/**
 * Whole passes: convergence across any number of crashes, what a pass that listens has achieved, and what none
 * touches.
 */
module ReconcileRuns {
  import opened Wrappers
  import opened Terminal
  import opened Reconcile
  import opened ReconcileTheorems

  // ---- a settled Run stays settled -------------------------------------------------

  /** The Run has nothing left to write, and its row says `verdict`. */
  ghost predicate Silent(d: Disk, r: string, verdict: Option<int>) {
    r in d.runs && RunWrites(d, r) == [] && Refusal(d, r) == verdict
  }

  ghost predicate Settled(d: Disk, r: string) {
    Silent(d, r, None)
  }

  /** A write that cannot undo another Run's settling: not to its documents, not to a converged Session. */
  ghost predicate Harmless(d: Disk, w: Write, r: string) {
    match w
    case PutProgress(run, _) => run != r
    case PutResult(run, _) => run != r
    case _ => w.session in d.sessions ==> !(d.sessions[w.session].evidence.Some? && d.sessions[w.session].fence.None?)
  }

  lemma HarmlessKeeps(d: Disk, w: Write, r: string, v: Option<int>)
    requires Silent(d, r, v) && Harmless(d, w, r)
    ensures Silent(ApplyWrite(d, w), r, v)
  {
    hide Classify, Emission, SelectRow, Quarantines;
    ClassifyIgnores(d, w, r);
    var f := Classify(d, r);
    assert RunSessionWrites(d, r, f) == [] && RunProgressWrites(d, r, f) == [] && RunResultWrites(d, r, f) == [];
  }

  lemma SessionKeeps(d: Disk, r: string, f: Facts, h: string, v: Option<int>, k: nat)
    requires Silent(d, h, v) && k <= |RunSessionWrites(d, r, f)|
    ensures Silent(ApplyAll(d, RunSessionWrites(d, r, f)[..k]), h, v)
  {
    hide Silent, Quarantines;
    var ws := RunSessionWrites(d, r, f);
    if k == 0 {
      assert ws[..0] == [];
    } else if |ws| == 1 {
      assert ws[..k] == [ws[0]];
      ApplyOne(d, ws[0]);
      HarmlessKeeps(d, ws[0], h, v);
    } else {
      ApplyOne(d, ws[0]);
      ApplyThree(d, ws[0], ws[1], ws[2]);
      assert ws[..k] == if k == 1 then [ws[0]] else if k == 2 then [ws[0], ws[1]] else [ws[0], ws[1], ws[2]];
      var d1 := ApplyWrite(d, ws[0]);
      HarmlessKeeps(d, ws[0], h, v);
      HarmlessKeeps(d1, ws[1], h, v);
      HarmlessKeeps(ApplyWrite(d1, ws[1]), ws[2], h, v);
    }
  }

  lemma {:induction false} OwnWritesKeep(d: Disk, ws: seq<Write>, r: string, h: string, v: Option<int>)
    requires Silent(d, h, v) && r != h
        && (forall i :: 0 <= i < |ws| ==> (ws[i].PutProgress? || ws[i].PutResult?) && ws[i].run == r)
    ensures Silent(ApplyAll(d, ws), h, v)
    decreases |ws|
  {
    hide Silent;
    if ws != [] {
      HarmlessKeeps(d, ws[0], h, v);
      OwnWritesKeep(ApplyWrite(d, ws[0]), ws[1..], r, h, v);
    }
  }

  lemma RunKeeps(d: Disk, r: string, h: string, v: Option<int>, k: nat)
    requires Silent(d, h, v) && r in d.runs && r != h && k <= |RunWrites(d, r)|
    ensures Silent(ApplyAll(d, RunWrites(d, r)[..k]), h, v)
  {
    hide Silent, Classify, Emission, SelectRow, RunSessionWrites, ApplyWrite;
    var f := Classify(d, r);
    var s, ws := RunSessionWrites(d, r, f), RunWrites(d, r);
    if k <= |s| {
      assert ws[..k] == s[..k];
      SessionKeeps(d, r, f, h, v, k);
    } else {
      assert ws[..k] == s + ws[|s|..k] && s[..|s|] == s;
      SessionKeeps(d, r, f, h, v, |s|);
      ApplySplit(d, s, ws[|s|..k]);
      OwnWritesKeep(ApplyAll(d, s), ws[|s|..k], r, h, v);
    }
  }

  lemma ListedAfter(d: Disk, ws: seq<Write>, order: seq<string>)
    requires Listed(d, order)
    ensures Listed(ApplyAll(d, ws), order)
  {
    WritesKeepKeys(d, ws);
    forall i | 0 <= i < |order|
      ensures order[i] in ApplyAll(d, ws).runs.Keys
    {
      assert order[i] in d.runs.Keys;
    }
  }

  /** The pass over the other directories leaves a silent Run silent with its verdict, wherever it is cut. */
  lemma {:induction false} PassKeeps(d: Disk, order: seq<string>, h: string, v: Option<int>, k: nat)
    requires Listed(d, order) && Silent(d, h, v) && h !in order && k <= |PassWrites(d, order)|
    ensures Silent(ApplyAll(d, PassWrites(d, order)[..k]), h, v)
    decreases |order|
  {
    hide Silent, RunWrites, Refusal, ApplyWrite;
    if order == [] {
      assert PassWrites(d, order)[..k] == [];
    } else {
      var ws := RunWrites(d, order[0]);
      if k <= |ws| {
        assert PassWrites(d, order)[..k] == ws[..k];
        RunKeeps(d, order[0], h, v, k);
      } else {
        var d1 := Settle(d, order[0]);
        StillListed(d, d1, order);
        var rest := PassWrites(d1, order[1..]);
        assert PassWrites(d, order)[..k] == ws + rest[..k - |ws|] && ws[..|ws|] == ws;
        RunKeeps(d, order[0], h, v, |ws|);
        ApplySplit(d, ws, rest[..k - |ws|]);
        PassKeeps(d1, order[1..], h, v, k - |ws|);
      }
    }
  }

  // ---- the size condition over a pass ----------------------------------------------

  ghost predicate Fits(d: Disk, order: seq<string>) {
    Listed(d, order) && forall i :: 0 <= i < |order| ==> FitsRun(d, order[i])
  }

  lemma FitsKept(d: Disk, w: Write, r: string)
    requires r in d.runs && FitsRun(d, r)
    ensures r in ApplyWrite(d, w).runs && FitsRun(ApplyWrite(d, w), r)
  {
    hide Trusted, EmittedSize, SelectRow;
    if Apart(w, r) {
      ClassifyIgnores(d, w, r);
    }
  }

  lemma {:induction false} FitsKeptAll(d: Disk, ws: seq<Write>, r: string)
    requires r in d.runs && FitsRun(d, r)
    ensures r in ApplyAll(d, ws).runs && FitsRun(ApplyAll(d, ws), r)
    decreases |ws|
  {
    hide FitsRun, ApplyWrite;
    if ws != [] {
      FitsKept(d, ws[0], r);
      FitsKeptAll(ApplyWrite(d, ws[0]), ws[1..], r);
    }
  }

  lemma FitsAfter(d: Disk, ws: seq<Write>, order: seq<string>)
    requires Fits(d, order)
    ensures Fits(ApplyAll(d, ws), order)
  {
    hide FitsRun, ApplyAll;
    ListedAfter(d, ws, order);
    forall i | 0 <= i < |order|
      ensures FitsRun(ApplyAll(d, ws), order[i])
    {
      FitsKeptAll(d, ws, order[i]);
    }
  }

  lemma FitsTail(d: Disk, order: seq<string>)
    requires Fits(d, order) && order != []
    ensures Fits(Settle(d, order[0]), order[1..])
  {
    hide FitsRun, ApplyAll, RunWrites;
    FitsAfter(d, RunWrites(d, order[0]), order);
    StillListed(d, Settle(d, order[0]), order);
  }

  // ---- convergence -----------------------------------------------------------------

  lemma FinalUnfolds(d: Disk, order: seq<string>)
    requires Listed(d, order) && order != [] && Refusal(d, order[0]).None?
    ensures Listed(Settle(d, order[0]), order[1..])
    ensures Final(d, order) == Final(Settle(d, order[0]), order[1..])
  {
    hide RunWrites, Refusal, ApplyWrite;
    var d1 := Settle(d, order[0]);
    StillListed(d, d1, order);
    ApplySplit(d, RunWrites(d, order[0]), PassWrites(d1, order[1..]));
  }

  /** A settled head adds nothing to a pass. */
  lemma SettledHead(d: Disk, order: seq<string>)
    requires Listed(d, order) && order != [] && Settled(d, order[0])
    ensures Listed(d, order[1..]) && Settle(d, order[0]) == d
    ensures PassWrites(d, order) == PassWrites(d, order[1..])
    ensures Final(d, order) == Final(d, order[1..]) && Verdict(d, order) == Verdict(d, order[1..])
  {
    hide RunWrites, Refusal, ApplyWrite;
    StillListed(d, d, order);
    FinalUnfolds(d, order);
  }

  lemma HeadSettles(d: Disk, r: string)
    requires r in d.runs && FitsRun(d, r) && Refusal(d, r).None?
    ensures Settled(Settle(d, r), r)
  {
    hide RunWrites, FitsRun, Refusal;
    RunEnds(d, r);
  }

  ghost predicate SameEnd(d: Disk, d': Disk, order: seq<string>)
    requires Listed(d, order)
  {
    Listed(d', order) && Final(d', order) == Final(d, order) && Verdict(d', order) == Verdict(d, order)
  }

  lemma CutInHead(d: Disk, order: seq<string>, k: nat)
    requires Fits(d, order) && order != [] && k <= |RunWrites(d, order[0])|
    ensures SameEnd(d, ApplyAll(d, RunWrites(d, order[0])[..k]), order)
  {
    hide RunWrites, FitsRun, Refusal, ApplyWrite;
    var d' := ApplyAll(d, RunWrites(d, order[0])[..k]);
    ListedAfter(d, RunWrites(d, order[0])[..k], order);
    RunResumes(d, order[0], k);
    if Refusal(d, order[0]).None? {
      FinalUnfolds(d, order);
      FinalUnfolds(d', order);
    }
  }

  /**
   * A pass cut after any number of its writes, then run again from the start, ends with the very disk and the very
   * verdict of the pass that was not cut.
   */
  lemma {:induction false} PassResumes(d: Disk, order: seq<string>, k: nat)
    requires Fits(d, order) && Distinct(order) && k <= |PassWrites(d, order)|
    ensures SameEnd(d, ApplyAll(d, PassWrites(d, order)[..k]), order)
    decreases |order|
  {
    hide RunWrites, FitsRun, Refusal, ApplyWrite, Settled, Final;
    if order == [] {
      assert PassWrites(d, order)[..k] == [];
    } else {
      var ws := RunWrites(d, order[0]);
      if k <= |ws| {
        assert PassWrites(d, order)[..k] == ws[..k];
        CutInHead(d, order, k);
      } else {
        CutBeyondHead(d, order, k);
      }
    }
  }

  lemma CutBeyondHead(d: Disk, order: seq<string>, k: nat)
    requires Fits(d, order) && Distinct(order) && order != [] && |RunWrites(d, order[0])| < k <= |PassWrites(d, order)|
    ensures SameEnd(d, ApplyAll(d, PassWrites(d, order)[..k]), order)
    decreases |order|, 0
  {
    hide RunWrites, FitsRun, Refusal, ApplyWrite, Silent, Final;
    var ws, h := RunWrites(d, order[0]), order[0];
    var d1 := Settle(d, h);
    FitsTail(d, order);
    var rest := PassWrites(d1, order[1..]);
    var j := k - |ws|;
    assert PassWrites(d, order)[..k] == ws + rest[..j];
    ApplySplit(d, ws, rest[..j]);
    var d' := ApplyAll(d1, rest[..j]);
    PassResumes(d1, order[1..], j);
    HeadSettles(d, h);
    PassKeeps(d1, order[1..], h, None, j);
    ListedAfter(d, ws + rest[..j], order);
    SettledHead(d', order);
    FinalUnfolds(d, order);
  }

  /**
   * A further pass writes nothing: whether or not the pass before it refused, and whatever the size of what it
   * emitted.
   */
  lemma {:induction false} SecondPassIsQuiet(d: Disk, order: seq<string>)
    requires Listed(d, order) && Distinct(order)
    ensures Listed(Final(d, order), order) && PassWrites(Final(d, order), order) == []
    decreases |order|
  {
    hide RunWrites, Refusal, ApplyWrite;
    ListedAfter(d, PassWrites(d, order), order);
    if order != [] {
      var h, d1 := order[0], Settle(d, order[0]);
      RunGoesQuiet(d, h);
      if Refusal(d, h).Some? {
        RefusalStays(d, h);
      } else {
        FinalUnfolds(d, order);
        SecondPassIsQuiet(d1, order[1..]);
        var rest := PassWrites(d1, order[1..]);
        assert rest[..|rest|] == rest;
        PassKeeps(d1, order[1..], h, Refusal(d1, h), |rest|);
        if Refusal(d1, h).None? {
          SettledHead(Final(d, order), order);
        }
      }
    }
  }

  /** Where a disk stands after passes that were cut, one after another, after so many writes each. */
  function Interrupted(d: Disk, order: seq<string>, cuts: seq<nat>): Disk
    requires Listed(d, order)
    decreases |cuts|
  {
    if cuts == [] then d
    else
      var ws := PassWrites(d, order);
      var k := if cuts[0] <= |ws| then cuts[0] else |ws|;
      ListedAfter(d, ws[..k], order);
      Interrupted(ApplyAll(d, ws[..k]), order, cuts[1..])
  }

  /** Any number of crashes, each after any write: the first pass that is not cut ends where an uncut one would have. */
  lemma {:induction false} ReconciliationConverges(d: Disk, order: seq<string>, cuts: seq<nat>)
    requires Fits(d, order) && Distinct(order)
    ensures SameEnd(d, Interrupted(d, order, cuts), order)
    decreases |cuts|
  {
    hide RunWrites, FitsRun, Refusal, ApplyWrite, Final;
    if cuts != [] {
      var ws := PassWrites(d, order);
      var k := if cuts[0] <= |ws| then cuts[0] else |ws|;
      PassResumes(d, order, k);
      FitsAfter(d, ws[..k], order);
      ReconciliationConverges(ApplyAll(d, ws[..k]), order, cuts[1..]);
    }
  }

  // ---- results are never rewritten -------------------------------------------------

  lemma {:induction false} ResultKept(d: Disk, ws: seq<Write>, r: string)
    requires r in d.runs && (forall i :: 0 <= i < |ws| ==> Apart(ws[i], r))
    ensures r in ApplyAll(d, ws).runs && ApplyAll(d, ws).runs[r].result == d.runs[r].result
    decreases |ws|
  {
    if ws != [] {
      ResultKept(ApplyWrite(d, ws[0]), ws[1..], r);
    }
  }

  lemma RunLeavesResult(d: Disk, r: string, other: string)
    requires r in d.runs && other in d.runs && (r != other || !d.runs[r].result.NoResult?)
    ensures forall w :: w in RunWrites(d, other) ==> Apart(w, r)
  {
    hide Classify, Emission, SelectRow;
    forall w | w in RunWrites(d, other)
      ensures Apart(w, r)
    {
      RowWritesOwn(d, other, w);
    }
  }

  /** No write of any pass, finished, cut or refused, is to a terminal that exists. */
  lemma {:induction false} ExistingTerminalsStand(d: Disk, order: seq<string>, r: string)
    requires Listed(d, order) && r in d.runs && !d.runs[r].result.NoResult?
    ensures forall w :: w in PassWrites(d, order) ==> Apart(w, r)
    ensures r in Final(d, order).runs && Final(d, order).runs[r].result == d.runs[r].result
    decreases |order|
  {
    hide RunWrites, Refusal, ApplyWrite;
    if order != [] {
      RunLeavesResult(d, r, order[0]);
      ResultKept(d, RunWrites(d, order[0]), r);
      if Refusal(d, order[0]).None? {
        StillListed(d, Settle(d, order[0]), order);
        ExistingTerminalsStand(Settle(d, order[0]), order[1..], r);
      }
    }
    ResultKept(d, PassWrites(d, order), r);
  }

  // ---- what a pass that listens has achieved ----------------------------------------

  /** The Session has its evidence and no fence. */
  predicate Converged(d: Disk, sid: string) {
    sid in d.sessions && d.sessions[sid].evidence.Some? && d.sessions[sid].fence.None?
  }

  /** The Run has its terminal, and any Session it was to quarantine is converged. */
  ghost predicate Achieved(d: Disk, d': Disk, r: string)
    requires r in d.runs
  {
    var f := Classify(d, r);
    && r in d'.runs
    && (Emits(f) ==> d'.runs[r].result == Object(Emission(d, r, f)))
    && (Quarantines(f, r).Some? ==> Converged(d', Quarantines(f, r).value.0))
  }

  lemma SessionConverges(d: Disk, r: string, f: Facts)
    requires Quarantines(f, r).Some? && Quarantines(f, r).value.0 in d.sessions
    ensures Converged(ApplyAll(d, RunSessionWrites(d, r, f)), Quarantines(f, r).value.0)
  {
    hide Quarantines;
    var ws := RunSessionWrites(d, r, f);
    if |ws| == 1 {
      ApplyOne(d, ws[0]);
    } else if |ws| == 3 {
      ApplyThree(d, ws[0], ws[1], ws[2]);
    }
  }

  lemma RunAchieves(d: Disk, r: string)
    requires r in d.runs && Refusal(d, r).None?
    ensures Achieved(d, Settle(d, r), r)
  {
    hide Emission, ApplyWrite, RunSessionWrites, ClassifyResult;
    var f := Classify(d, r);
    var s, p, t := RunSessionWrites(d, r, f), RunProgressWrites(d, r, f), RunResultWrites(d, r, f);
    ApplySplit(d, s + p, t);
    ApplySplit(d, s, p);
    WritesKeepKeys(d, s + p);
    if Quarantines(f, r).Some? {
      SessionConverges(d, r, f);
      OwnKeepsSession(ApplyAll(d, s), p);
      OwnKeepsSession(ApplyAll(d, s + p), t);
    }
    if Emits(f) {
      EmittersAreBare(d, r);
      ApplyOne(ApplyAll(d, s + p), t[0]);
      ResultWritten(ApplyAll(d, s + p), r, Emission(d, r, f));
    }
  }

  lemma EmittersAreBare(d: Disk, r: string)
    requires r in d.runs && Emits(Classify(d, r))
    ensures d.runs[r].result.NoResult?
  {
    hide Trusted;
  }

  lemma ResultWritten(d: Disk, r: string, p: Payload)
    requires r in d.runs
    ensures ApplyWrite(d, PutResult(r, p)).runs[r].result == Object(p)
  {
  }

  lemma {:induction false} OwnKeepsSession(d: Disk, ws: seq<Write>)
    requires forall i :: 0 <= i < |ws| ==> ws[i].PutProgress? || ws[i].PutResult?
    ensures ApplyAll(d, ws).sessions == d.sessions
    decreases |ws|
  {
    if ws != [] {
      OwnKeepsSession(ApplyWrite(d, ws[0]), ws[1..]);
    }
  }

  lemma ConvergedStays(d: Disk, r: string, sid: string)
    requires r in d.runs && Converged(d, sid)
    ensures Converged(Settle(d, r), sid)
  {
    hide Classify, Emission, Quarantines, SelectRow;
    var f := Classify(d, r);
    var s, rest := RunSessionWrites(d, r, f), RunProgressWrites(d, r, f) + RunResultWrites(d, r, f);
    assert RunWrites(d, r) == s + rest;
    ApplySplit(d, s, rest);
    OwnKeepsSession(ApplyAll(d, s), rest);
    if |s| == 1 {
      ApplyOne(d, s[0]);
    } else if |s| == 3 {
      ApplyThree(d, s[0], s[1], s[2]);
    }
  }

  lemma {:induction false} PassKeepsConverged(d: Disk, order: seq<string>, sid: string)
    requires Listed(d, order) && Converged(d, sid)
    ensures Converged(Final(d, order), sid)
    decreases |order|
  {
    hide RunWrites, Refusal, ApplyWrite, Converged;
    if order != [] {
      ConvergedStays(d, order[0], sid);
      if Refusal(d, order[0]).None? {
        FinalUnfolds(d, order);
        PassKeepsConverged(Settle(d, order[0]), order[1..], sid);
      }
    }
  }

  lemma AchievedStays(d: Disk, d1: Disk, order: seq<string>, r: string)
    requires r in d.runs && Achieved(d, d1, r) && Listed(d1, order)
    ensures Achieved(d, Final(d1, order), r)
  {
    hide Classify, Emission, Quarantines, Emits, Final, Converged;
    var f := Classify(d, r);
    if Emits(f) {
      ExistingTerminalsStand(d1, order, r);
    }
    ListedAfterKeys(d1, order, r);
    if Quarantines(f, r).Some? {
      PassKeepsConverged(d1, order, Quarantines(f, r).value.0);
    }
  }

  lemma ListedAfterKeys(d: Disk, order: seq<string>, r: string)
    requires Listed(d, order) && r in d.runs
    ensures r in Final(d, order).runs
  {
    WritesKeepKeys(d, PassWrites(d, order));
    assert r in d.runs.Keys;
  }

  /** A pass that ends without refusing has achieved, for every Run it was given, all that the Run's row asks. */
  lemma {:induction false} EveryRunIsAchieved(d: Disk, order: seq<string>, r: string)
    requires Listed(d, order) && Distinct(order) && Verdict(d, order).None? && r in order
    ensures r in d.runs && Achieved(d, Final(d, order), r)
    decreases |order|
  {
    hide RunWrites, Refusal, ApplyWrite, Achieved, Final;
    var d1 := Settle(d, order[0]);
    FinalUnfolds(d, order);
    if r == order[0] {
      RunAchieves(d, r);
      AchievedStays(d, d1, order[1..], r);
    } else {
      assert r in order[1..];
      EveryRunIsAchieved(d1, order[1..], r);
      AnotherRunsRow(d, order[0], r);
      AchievedCarries(d, d1, Final(d, order), r);
    }
  }

  lemma AnotherRunsRow(d: Disk, other: string, r: string)
    requires r in d.runs && other in d.runs && r != other
    ensures r in Settle(d, other).runs && Classify(Settle(d, other), r) == Classify(d, r)
  {
    hide Classify, RunWrites;
    var ws := RunWrites(d, other);
    assert ws[..|ws|] == ws;
    RowIsItsOwn(d, r, other, |ws|);
  }

  lemma AchievedCarries(d: Disk, d1: Disk, d': Disk, r: string)
    requires r in d.runs && r in d1.runs && Classify(d1, r) == Classify(d, r) && d1.root == d.root
        && Achieved(d1, d', r)
    ensures Achieved(d, d', r)
  {
    hide Classify;
    SameEmission(d, d1, r, Classify(d, r));
  }

  /** What a Run without a terminal is given, in the documents' own terms. */
  ghost predicate GivenTerminal(d: Disk, d': Disk, r: string)
    requires r in d.runs && r in d'.runs
  {
    var doc, a := d.runs[r], Attributed(d.runs[r]);
    && d'.runs[r].result.Object?
    && d'.runs[r].result.payload.status == Some(Text(StatusText(if doc.dispatch then StatusUnknown else Failed)))
    && (doc.dispatch || (SwitchUnproven(doc) && Actionable(d.sessions, a))
        ==> a.Some? && Converged(d', a.value.session))
  }

  lemma AchievedMeans(d: Disk, d': Disk, r: string)
    requires r in d.runs && Achieved(d, d', r) && Refusal(d, r).None? && d.runs[r].result.NoResult?
    ensures GivenTerminal(d, d', r)
  {
    hide Converged, Trusted, StatusText;
  }

  /**
   * After a pass that listens: a Run that had a dispatch marker and no terminal has an `unknown` one and its Session
   * is quarantined; a Run failed before dispatch has a `failed` one, and if its configuration switch was unproven and
   * its Session actionable, that Session is quarantined.
   */
  lemma ListeningMeansSettled(d: Disk, order: seq<string>, r: string)
    requires Listed(d, order) && Distinct(order) && Verdict(d, order).None? && r in order
    ensures r in d.runs && r in Final(d, order).runs
    ensures d.runs[r].result.NoResult? ==> GivenTerminal(d, Final(d, order), r)
  {
    hide Final, GivenTerminal, Classify, Quarantines, Emission, Emits, Refusal, Verdict;
    EveryRunIsAchieved(d, order, r);
    if d.runs[r].result.NoResult? {
      NotRefused(d, order, r);
      AchievedMeans(d, Final(d, order), r);
    }
  }

  /** A pass that listens met no refusing row. */
  lemma {:induction false} NotRefused(d: Disk, order: seq<string>, r: string)
    requires Listed(d, order) && Distinct(order) && Verdict(d, order).None? && r in order
    ensures r in d.runs && Refusal(d, r).None?
    decreases |order|
  {
    hide RunWrites, Classify, SelectRow, ApplyWrite;
    if r != order[0] {
      var d1 := Settle(d, order[0]);
      StillListed(d, d1, order);
      assert r in order[1..];
      NotRefused(d1, order[1..], r);
      AnotherRunsRow(d, order[0], r);
    }
  }

  // ---- exactly when a rerun listens -------------------------------------------------

  /**
   * After a pass that listened, the next one listens exactly when every terminal the first emitted was within the
   * size ceiling, a condition on the disk before the first pass.
   */
  lemma RerunListensIff(d: Disk, order: seq<string>)
    requires Listed(d, order) && Distinct(order) && Verdict(d, order).None?
    ensures Listed(Final(d, order), order)
    ensures Verdict(Final(d, order), order).None? <==> Fits(d, order)
  {
    hide Final, Verdict, FitsRun;
    AllStillListed(d, order);
    if Fits(d, order) {
      PassResumes(d, order, |PassWrites(d, order)|);
      WholePass(d, order);
    } else {
      var i :| 0 <= i < |order| && !FitsRun(d, order[i]);
      OversizeRefuses(d, order, order[i]);
    }
  }

  /**
   * For a pass that listens the condition is exact: rerun after any crashes it ends where an uncut pass would have,
   * exactly when every terminal it has to emit is within the ceiling.
   */
  lemma ConvergesIff(d: Disk, order: seq<string>)
    requires Listed(d, order) && Distinct(order) && Verdict(d, order).None?
    ensures (forall cuts :: SameEnd(d, Interrupted(d, order, cuts), order)) <==> Fits(d, order)
  {
    hide Final, Verdict, FitsRun, RunWrites, ApplyWrite;
    if Fits(d, order) {
      forall cuts
        ensures SameEnd(d, Interrupted(d, order, cuts), order)
      {
        ReconciliationConverges(d, order, cuts);
      }
    } else {
      var n := |PassWrites(d, order)|;
      WholePass(d, order);
      AllStillListed(d, order);
      assert [n][1..] == [];
      assert Interrupted(d, order, [n]) == Interrupted(Final(d, order), order, []);
      RerunListensIff(d, order);
    }
  }

  lemma AllStillListed(d: Disk, order: seq<string>)
    requires Listed(d, order)
    ensures Listed(Final(d, order), order)
  {
    ListedAfter(d, PassWrites(d, order), order);
  }

  lemma WholePass(d: Disk, order: seq<string>)
    requires Listed(d, order)
    ensures ApplyAll(d, PassWrites(d, order)[..|PassWrites(d, order)|]) == Final(d, order)
  {
    assert PassWrites(d, order)[..|PassWrites(d, order)|] == PassWrites(d, order);
  }

  lemma OversizeRefuses(d: Disk, order: seq<string>, r: string)
    requires Listed(d, order) && Distinct(order) && Verdict(d, order).None? && r in order && r in d.runs
        && !FitsRun(d, r)
    ensures Listed(Final(d, order), order) && Verdict(Final(d, order), order).Some?
  {
    hide Final, Verdict, Emission, Quarantines, EmittedSize, ClassifyResult;
    AllStillListed(d, order);
    EveryRunIsAchieved(d, order, r);
    EmissionClass(d, r, Classify(d, r));
    var d' := Final(d, order);
    assert Refusal(d', r).Some?;
    if Verdict(d', order).None? {
      NotRefused(d', order, r);
    }
  }

  /** The refusal is real: with a long enough Session name, the pass listens and every pass after it refuses. */
  lemma LongNameBlocksRestart(runId: string, n: nat)
    requires MAX_RESULT_BYTES <= n
    ensures var a := Attribution(Repeated(n), "owner", "namespace");
      var doc := RunDoc(NoResult, false, false, false, false, DocValid(a), KindAbsent, DocAbsent, NoProgress);
      var d := Disk("/runs", map[runId := doc], map[]);
      && Listed(d, [runId]) && Verdict(d, [runId]).None?
      && Listed(Final(d, [runId]), [runId]) && Verdict(Final(d, [runId]), [runId]).Some?
  {
    hide Final, EmittedSize, Trusted, RunWrites, QuotedLength;
    var a := Attribution(Repeated(n), "owner", "namespace");
    var doc := RunDoc(NoResult, false, false, false, false, DocValid(a), KindAbsent, DocAbsent, NoProgress);
    var d := Disk("/runs", map[runId := doc], map[]);
    assert [runId][1..] == [];
    EmittedTrustedIff(runId, RunDirOf(d, runId), Failed, "RECONCILED_PRE_DISPATCH", Some(Repeated(n)));
    LongNameIsUntrusted(runId, RunDirOf(d, runId), Failed, "RECONCILED_PRE_DISPATCH", n);
    assert !FitsRun(d, runId);
    RerunListensIff(d, [runId]);
    assert !Fits(d, [runId]) by { assert [runId][0] == runId; }
  }
}
