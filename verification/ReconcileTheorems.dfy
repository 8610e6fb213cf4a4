/**
 * Reconciliation over crashes and reruns: every prefix of a pass leads, rerun, to the same disk and the same verdict.
 */
module ReconcileTheorems {
  import opened Terminal
  import opened Reconcile

  // ---- lists of writes -------------------------------------------------------------

  lemma {:induction false} ApplySplit(d: Disk, a: seq<Write>, b: seq<Write>)
    ensures ApplyAll(d, a + b) == ApplyAll(ApplyAll(d, a), b)
    decreases |a|
  {
    if a == [] {
      assert a + b == b;
    } else {
      assert (a + b)[1..] == a[1..] + b;
      ApplySplit(ApplyWrite(d, a[0]), a[1..], b);
    }
  }

  lemma ApplyCut(d: Disk, ws: seq<Write>, k: nat)
    requires k <= |ws|
    ensures ApplyAll(ApplyAll(d, ws[..k]), ws[k..]) == ApplyAll(d, ws)
  {
    assert ws[..k] + ws[k..] == ws;
    ApplySplit(d, ws[..k], ws[k..]);
  }

  lemma ApplyOne(d: Disk, w: Write)
    ensures ApplyAll(d, [w]) == ApplyWrite(d, w)
  {
    assert [w][1..] == [];
    assert ApplyAll(ApplyWrite(d, w), []) == ApplyWrite(d, w);
  }

  lemma ApplyThree(d: Disk, a: Write, b: Write, c: Write)
    ensures ApplyAll(d, [a, b]) == ApplyWrite(ApplyWrite(d, a), b)
    ensures ApplyAll(d, [a, b, c]) == ApplyWrite(ApplyWrite(ApplyWrite(d, a), b), c)
  {
    hide ApplyWrite;
    assert [a, b] == [a] + [b] && [a, b, c] == [a, b] + [c];
    ApplySplit(d, [a], [b]);
    ApplySplit(d, [a, b], [c]);
    ApplyOne(d, a);
    ApplyOne(ApplyWrite(d, a), b);
    ApplyOne(ApplyWrite(ApplyWrite(d, a), b), c);
  }

  // ---- what classification does not depend on --------------------------------------

  /** Writes that change nothing about how Run `r` is classified: everything but its own terminal. */
  predicate Apart(w: Write, r: string) {
    w.PutResult? ==> w.run != r
  }

  lemma ClassifyIgnores(d: Disk, w: Write, r: string)
    requires r in d.runs && Apart(w, r)
    ensures r in ApplyWrite(d, w).runs && Classify(ApplyWrite(d, w), r) == Classify(d, r)
  {
    hide Trusted;
  }

  lemma {:induction false} ClassifyIgnoresAll(d: Disk, ws: seq<Write>, r: string)
    requires r in d.runs && (forall i :: 0 <= i < |ws| ==> Apart(ws[i], r))
    ensures r in ApplyAll(d, ws).runs && Classify(ApplyAll(d, ws), r) == Classify(d, r)
    decreases |ws|
  {
    hide Classify, ApplyWrite;
    if ws != [] {
      ClassifyIgnores(d, ws[0], r);
      ClassifyIgnoresAll(ApplyWrite(d, ws[0]), ws[1..], r);
    }
  }

  /** Every write of a Run's row is to its own documents or to the Session it quarantines. */
  lemma RowWritesOwn(d: Disk, r: string, w: Write)
    requires r in d.runs && w in RunWrites(d, r)
    ensures (w.PutProgress? || w.PutResult?) ==> w.run == r
    ensures w.PutResult? ==> w in RunResultWrites(d, r, Classify(d, r))
  {
    hide Classify, Emission, SelectRow;
  }

  /** One Run's row is unaffected by the effects applied for another, whole or in part. */
  lemma RowIsItsOwn(d: Disk, r: string, other: string, k: nat)
    requires r in d.runs && other in d.runs && r != other && k <= |RunWrites(d, other)|
    ensures r in ApplyAll(d, RunWrites(d, other)[..k]).runs
    ensures Classify(ApplyAll(d, RunWrites(d, other)[..k]), r) == Classify(d, r)
  {
    hide Classify, RunWrites;
    var ws := RunWrites(d, other)[..k];
    forall i | 0 <= i < |ws|
      ensures Apart(ws[i], r)
    {
      RowWritesOwn(d, other, ws[i]);
    }
    ClassifyIgnoresAll(d, ws, r);
  }

  // ---- the size condition ----------------------------------------------------------

  /** Should this Run get a terminal, it will be within the ceiling. Known before anything is written. */
  predicate FitsRun(d: Disk, r: string)
    requires r in d.runs
  {
    var f := Classify(d, r);
    Emits(f) && d.runs[r].result.NoResult? ==>
      EmittedSize(r, RunDirOf(d, r), EmitStatus(f), EmitDetail(f), EmitSession(f)) <= MAX_RESULT_BYTES
  }

  lemma EmissionClass(d: Disk, r: string, f: Facts)
    ensures EmittedSize(r, RunDirOf(d, r), EmitStatus(f), EmitDetail(f), EmitSession(f)) <= MAX_RESULT_BYTES ==>
      ClassifyResult(Object(Emission(d, r, f)), r) == if SelectRow(f).number == 5 then TrustedUnknown
          else TrustedTerminal
    ensures EmittedSize(r, RunDirOf(d, r), EmitStatus(f), EmitDetail(f), EmitSession(f)) > MAX_RESULT_BYTES ==>
      ClassifyResult(Object(Emission(d, r, f)), r) == CorruptTerminal
  {
    hide Trusted, EmittedSize, Emitted, ParseStatus;
    EmittedTrustedIff(r, RunDirOf(d, r), EmitStatus(f), EmitDetail(f), EmitSession(f));
    EmittedWellFormed(r, RunDirOf(d, r), EmitStatus(f), EmitDetail(f), EmitSession(f));
  }

  // ---- one Run, interrupted --------------------------------------------------------

  /** An interrupted fence-quarantine-clear goes on where it stopped, except that a bare fence is written afresh. */
  lemma SessionResumes(d: Disk, r: string, f: Facts, k: nat)
    requires k <= |RunSessionWrites(d, r, f)|
    ensures var ws := RunSessionWrites(d, r, f); var d' := ApplyAll(d, ws[..k]);
      && d'.runs == d.runs && d'.root == d.root
      && (RunSessionWrites(d', r, f) == ws[k..]
          || (k == 1 && |ws| == 3 && RunSessionWrites(d', r, f) == ws && ApplyWrite(d', ws[0]) == d'))
  {
    hide Quarantines;
    var ws := RunSessionWrites(d, r, f);
    if k == 0 {
      assert ws[..0] == [] && ws[0..] == ws;
    } else if |ws| == 1 {
      assert ws[..k] == [ws[0]];
      ApplyOne(d, ws[0]);
    } else {
      ApplyOne(d, ws[0]);
      ApplyThree(d, ws[0], ws[1], ws[2]);
      assert ws[..k] == if k == 1 then [ws[0]] else if k == 2 then [ws[0], ws[1]] else [ws[0], ws[1], ws[2]];
    }
  }

  /** Session writes leave the Run's own part of the row as it was. */
  lemma AfterSession(d: Disk, r: string, k: nat)
    requires r in d.runs && k <= |RunSessionWrites(d, r, Classify(d, r))|
    ensures var f := Classify(d, r); var d' := ApplyAll(d, RunSessionWrites(d, r, f)[..k]);
      && r in d'.runs && Classify(d', r) == f
      && RunProgressWrites(d', r, f) == RunProgressWrites(d, r, f)
      && RunResultWrites(d', r, f) == RunResultWrites(d, r, f)
  {
    hide Classify, Emission, ApplyWrite, Quarantines;
    var f := Classify(d, r);
    var ws := RunSessionWrites(d, r, f);
    SessionResumes(d, r, f, k);
    assert forall i :: 0 <= i < |ws[..k]| ==> Apart(ws[..k][i], r);
    ClassifyIgnoresAll(d, ws[..k], r);
    var d' := ApplyAll(d, ws[..k]);
    SameEmission(d, d', r, f);
  }

  lemma SameEmission(d: Disk, d': Disk, r: string, f: Facts)
    requires d'.root == d.root
    ensures Emission(d', r, f) == Emission(d, r, f)
  {
  }

  /** With the Session settled, writing the progress leaves only the terminal to do. */
  lemma AfterProgress(d: Disk, r: string)
    requires r in d.runs && RunSessionWrites(d, r, Classify(d, r)) == []
    ensures var f := Classify(d, r); var d' := ApplyAll(d, RunProgressWrites(d, r, f));
      && r in d'.runs && Classify(d', r) == f
      && RunSessionWrites(d', r, f) == [] && RunProgressWrites(d', r, f) == []
      && RunResultWrites(d', r, f) == RunResultWrites(d, r, f)
  {
    hide Classify, Emission, Quarantines, SelectRow;
    var f := Classify(d, r);
    var ws := RunProgressWrites(d, r, f);
    if ws != [] {
      ApplyOne(d, ws[0]);
      ClassifyIgnores(d, ws[0], r);
      SameEmission(d, ApplyWrite(d, ws[0]), r, f);
    }
  }

  /** With only the terminal left, writing one that fits leaves nothing. */
  lemma AfterResult(d: Disk, r: string)
    requires r in d.runs && FitsRun(d, r)
    requires var f := Classify(d, r); RunSessionWrites(d, r, f) == [] && RunProgressWrites(d, r, f) == []
    ensures var d' := ApplyAll(d, RunResultWrites(d, r, Classify(d, r)));
      r in d'.runs && RunWrites(d', r) == [] && Refusal(d', r) == Refusal(d, r)
  {
    hide Emission, EmittedSize, ClassifyResult;
    var f := Classify(d, r);
    var ws := RunResultWrites(d, r, f);
    if ws != [] {
      ApplyOne(d, ws[0]);
      EmissionClass(d, r, f);
      assert ClassifyResult(NoResult, r) == AbsentTerminal by { NothingIsAbsent(r); }
    }
  }

  /**
   * Writing one that does not fit leaves nothing to write either: the next row refuses, its Session already settled.
   */
  lemma AfterResultQuiet(d: Disk, r: string)
    requires r in d.runs
    requires var f := Classify(d, r); RunSessionWrites(d, r, f) == [] && RunProgressWrites(d, r, f) == []
    ensures var d' := ApplyAll(d, RunResultWrites(d, r, Classify(d, r))); r in d'.runs && RunWrites(d', r) == []
  {
    hide Emission, EmittedSize, ClassifyResult;
    var f := Classify(d, r);
    var ws := RunResultWrites(d, r, f);
    if ws != [] {
      ApplyOne(d, ws[0]);
      EmissionClass(d, r, f);
      NothingIsAbsent(r);
    }
  }

  lemma NothingIsAbsent(r: string)
    ensures ClassifyResult(NoResult, r) == AbsentTerminal
  {
  }

  ghost predicate Agrees(d: Disk, d': Disk, r: string)
    requires r in d.runs
  {
    && r in d'.runs && Refusal(d', r) == Refusal(d, r)
    && ApplyAll(d', RunWrites(d', r)) == ApplyAll(d, RunWrites(d, r))
  }

  lemma CutInSession(d: Disk, r: string, k: nat)
    requires r in d.runs && k <= |RunSessionWrites(d, r, Classify(d, r))|
    ensures Agrees(d, ApplyAll(d, RunWrites(d, r)[..k]), r)
  {
    hide Classify, Emission, ApplyWrite, RunSessionWrites, RunProgressWrites, RunResultWrites, SelectRow;
    var f := Classify(d, r);
    var s, ws := RunSessionWrites(d, r, f), RunWrites(d, r);
    var rest := RunProgressWrites(d, r, f) + RunResultWrites(d, r, f);
    assert ws == s + rest && ws[..k] == s[..k];
    var d' := ApplyAll(d, ws[..k]);
    AfterSession(d, r, k);
    SessionResumes(d, r, f, k);
    ApplyCut(d, ws, k);
    if RunSessionWrites(d', r, f) == s[k..] {
      assert RunWrites(d', r) == ws[k..];
    } else {
      assert RunWrites(d', r) == ws && ws == [ws[0]] + ws[1..];
      ApplySplit(d', [ws[0]], ws[1..]);
      ApplyOne(d', ws[0]);
    }
  }

  lemma SessionSettles(d: Disk, r: string)
    requires r in d.runs
    ensures var f := Classify(d, r); var d' := ApplyAll(d, RunSessionWrites(d, r, f));
      && r in d'.runs && Classify(d', r) == f && RunSessionWrites(d', r, f) == []
      && RunProgressWrites(d', r, f) == RunProgressWrites(d, r, f)
      && RunResultWrites(d', r, f) == RunResultWrites(d, r, f)
  {
    hide Classify, Emission, ApplyWrite, RunProgressWrites, RunResultWrites, SelectRow, Quarantines;
    var f := Classify(d, r);
    var s := RunSessionWrites(d, r, f);
    assert s[..|s|] == s;
    SessionResumes(d, r, f, |s|);
    AfterSession(d, r, |s|);
  }

  lemma FitsStays(d: Disk, d': Disk, r: string)
    requires r in d.runs && r in d'.runs && FitsRun(d, r) && Classify(d', r) == Classify(d, r)
    requires d'.root == d.root
    ensures FitsRun(d', r)
  {
    hide EmittedSize, Trusted;
  }

  /** The disk once Session and progress are done, the terminal being all that is left. */
  lemma ProgressSettles(d: Disk, r: string)
    requires r in d.runs
    ensures var f := Classify(d, r); var d' := ApplyAll(d, RunSessionWrites(d, r, f) + RunProgressWrites(d, r, f));
      && r in d'.runs && Classify(d', r) == f && d'.root == d.root
      && RunSessionWrites(d', r, f) == [] && RunProgressWrites(d', r, f) == []
      && RunResultWrites(d', r, f) == RunResultWrites(d, r, f)
  {
    hide Classify, Emission, ApplyWrite, RunSessionWrites, RunProgressWrites, RunResultWrites, SelectRow;
    var f := Classify(d, r);
    var s, p := RunSessionWrites(d, r, f), RunProgressWrites(d, r, f);
    SessionSettles(d, r);
    AfterProgress(ApplyAll(d, s), r);
    ApplySplit(d, s, p);
    WritesKeepKeys(d, s + p);
  }

  lemma CutBeforeResult(d: Disk, r: string, k: nat)
    requires r in d.runs && |RunSessionWrites(d, r, Classify(d, r))| <= k < |RunWrites(d, r)|
    ensures Agrees(d, ApplyAll(d, RunWrites(d, r)[..k]), r)
  {
    hide Classify, Emission, ApplyWrite, RunSessionWrites, RunProgressWrites, RunResultWrites, SelectRow;
    var f := Classify(d, r);
    var s, p, t := RunSessionWrites(d, r, f), RunProgressWrites(d, r, f), RunResultWrites(d, r, f);
    var ws := RunWrites(d, r);
    ApplyCut(d, ws, k);
    AtMostOne(d, r, f);
    if k == |s| {
      SessionSettles(d, r);
      assert ws[..k] == s;
    } else {
      ProgressSettles(d, r);
      assert ws[..k] == s + p;
    }
    assert RunWrites(ApplyAll(d, ws[..k]), r) == ws[k..];
  }

  lemma RunEnds(d: Disk, r: string)
    requires r in d.runs && FitsRun(d, r)
    ensures Agrees(d, ApplyAll(d, RunWrites(d, r)), r)
    ensures RunWrites(ApplyAll(d, RunWrites(d, r)), r) == []
  {
    hide Classify, Emission, ApplyWrite, RunSessionWrites, RunProgressWrites, RunResultWrites, SelectRow, FitsRun;
    var f := Classify(d, r);
    var sp, t := RunSessionWrites(d, r, f) + RunProgressWrites(d, r, f), RunResultWrites(d, r, f);
    ProgressSettles(d, r);
    ApplySplit(d, sp, t);
    var d2 := ApplyAll(d, sp);
    FitsStays(d, d2, r);
    AfterResult(d2, r);
    SameRow(d, d2, r);
  }

  /** A Run that was gone through has nothing left to write, whatever the size of its terminal. */
  lemma RunGoesQuiet(d: Disk, r: string)
    requires r in d.runs
    ensures r in ApplyAll(d, RunWrites(d, r)).runs && RunWrites(ApplyAll(d, RunWrites(d, r)), r) == []
  {
    hide Classify, Emission, ApplyWrite, RunSessionWrites, RunProgressWrites, RunResultWrites, SelectRow;
    var f := Classify(d, r);
    var sp, t := RunSessionWrites(d, r, f) + RunProgressWrites(d, r, f), RunResultWrites(d, r, f);
    ProgressSettles(d, r);
    ApplySplit(d, sp, t);
    AfterResultQuiet(ApplyAll(d, sp), r);
  }

  /** A row that refuses emits nothing, so it refuses again. */
  lemma RefusalStays(d: Disk, r: string)
    requires r in d.runs && Refusal(d, r).Some?
    ensures r in ApplyAll(d, RunWrites(d, r)).runs && Refusal(ApplyAll(d, RunWrites(d, r)), r) == Refusal(d, r)
  {
    hide Classify, Emission, ApplyWrite, RunSessionWrites, RunProgressWrites;
    ProgressSettles(d, r);
    var f := Classify(d, r);
    assert RunWrites(d, r) == RunSessionWrites(d, r, f) + RunProgressWrites(d, r, f);
  }

  lemma AtMostOne(d: Disk, r: string, f: Facts)
    requires r in d.runs
    ensures |RunProgressWrites(d, r, f)| <= 1 && |RunResultWrites(d, r, f)| <= 1
  {
    hide Emission;
  }

  lemma SameRow(d: Disk, d': Disk, r: string)
    requires r in d.runs && r in d'.runs && Classify(d', r) == Classify(d, r)
    ensures Refusal(d', r) == Refusal(d, r)
  {
    hide Classify;
  }

  /** A Run stopped after any of its writes and taken up again ends where it would have ended, with the same verdict. */
  lemma RunResumes(d: Disk, r: string, k: nat)
    requires r in d.runs && FitsRun(d, r) && k <= |RunWrites(d, r)|
    ensures Agrees(d, ApplyAll(d, RunWrites(d, r)[..k]), r)
    ensures k == |RunWrites(d, r)| ==> RunWrites(ApplyAll(d, RunWrites(d, r)[..k]), r) == []
  {
    hide Classify, RunWrites, RunSessionWrites, Agrees, FitsRun;
    if k < |RunSessionWrites(d, r, Classify(d, r))| {
      CutInSession(d, r, k);
      assert k < |RunWrites(d, r)| by { SessionIsFirst(d, r); }
    } else if k < |RunWrites(d, r)| {
      CutBeforeResult(d, r, k);
    } else {
      assert RunWrites(d, r)[..k] == RunWrites(d, r);
      RunEnds(d, r);
    }
  }

  lemma SessionIsFirst(d: Disk, r: string)
    requires r in d.runs
    ensures |RunSessionWrites(d, r, Classify(d, r))| <= |RunWrites(d, r)|
  {
    hide Classify, RunSessionWrites, RunProgressWrites, RunResultWrites;
  }
}
