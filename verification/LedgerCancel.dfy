/**
 What a cancelled close task can do: a run whose cached close outcome leaves an accepted ticket unsettled, and a run in
 which an append returns late and the acknowledgement guard fires. In both, time stands still.
 */
module LedgerCancel {
  import opened Wrappers
  import opened L = Ledger
  import opened LedgerInvariant
  import opened LedgerHistory
  import opened LedgerSteps
  import opened LedgerCodes
  import opened LedgerTheorems
  import opened LedgerStill

  // ---- a close cancelled while a failure drains --------------------------

  /** A line whose rendering raises fails the admission layer; the admitted line stays with its live consumer. */
  lemma BadLine(e: Env, s: L.Ledger, bad: Event)
    requires Still(e) && Roomy(e) && One(e, s) && s.state == Running && bad.full.None?
    ensures var s' := Submit(e, s, bad, AdmissionPhase).0;
      && Inv(e, s') && HasFailed(s'.b) && s'.b.admitted == [1] && s'.state == Failing
      && s'.close == s.close && s'.cached == s.cached
  {
    hide Balanced, Control, CheckPasses, PumpLoop, Pump, Quiet;
    StillPump(e, s);
    var s1 := Pump(e, s);
    OneIsAdmitted(e, s1);
    PoisonInv(e, s1, Serialization, 2, None, false);
  }

  lemma GiveUpDraining(e: Env, s: L.Ledger)
    requires HasFailed(s.b) && s.state == Failing && s.close == NoClose && s.cached == NotCached
    ensures var s' := CacheClose(CancelClose(Close(e, s)));
      s'.cached.FailedWith? && s'.b == s.b
  {
    hide Pump, Poison;
  }

  const UNRENDERABLE := Event(None, None)

  const DRAIN_GIVEN_UP := [
    DoStart(true), DoSubmit(ONE_LINE), DoSubmit(UNRENDERABLE), DoClose, DoCancelClose, DoCacheClose]

  /**
   Start, accept one line, fail on the next, begin to close, cancel the close, cache its outcome: callers of close are
   now answered with the failure, and the persistence of the accepted line is not settled.
   */
  lemma CancelledCloseLeavesUnsettled(e: Env)
    requires Still(e) && Roomy(e)
    ensures var s := Run(e, Initial, DRAIN_GIVEN_UP);
      s.cached.FailedWith? && |s.b.tickets| > 0 && s.b.tickets[0].persistence.None? && !AllSettled(s.b)
  {
    hide Balanced, Control, Quiet, Submit, Start, Close, CancelClose, CacheClose, AllSettled, Run;
    Started(e);
    var s1 := Start(Initial, true);
    StillSubmit(e, s1, ONE_LINE);
    var s2 := Submit(e, s1, ONE_LINE, AdmissionPhase).0;
    BadLine(e, s2, UNRENDERABLE);
    var s3 := Submit(e, s2, UNRENDERABLE, AdmissionPhase).0;
    GiveUpDraining(e, s3);
    RunSix(e, Initial, DRAIN_GIVEN_UP);
    SettledIffEmpty(e, s3.b);
    HeadUnsettled(e, s3.b);
  }

  lemma HeadUnsettled(e: Env, b: Books)
    requires Balanced(e, b) && b.admitted == [1]
    ensures |b.tickets| > 0 && b.tickets[0].persistence.None?
  {
    assert PhaseOk(b, 0);
  }

  // ---- an append that returns late ---------------------------------------

  /** The accepted line is being appended, and every byte of it has been written. */
  ghost predicate AllWritten(e: Env, s: L.Ledger) {
    && Inv(e, s) && s.task == Appending(1) && s.b.persisted == 0
    && |s.b.tickets| == 1 && s.b.torn == |s.b.tickets[0].wire|
  }

  lemma TakeAndWrite(e: Env, s: L.Ledger)
    requires Roomy(e) && One(e, s) && s.task == Fresh
    ensures var s' := SinkWrites(ConsumerRuns(s), MAX_EVENT_BYTES_MAX);
      && AllWritten(e, s') && One(e, s') && s'.state == s.state && s'.close == s.close && s'.cached == s.cached
  {
    hide Balanced, Quiet;
    OneIsAdmitted(e, s);
    ConsumerRunsInv(e, s);
    var s1 := ConsumerRuns(s);
    SinkWritesInv(e, s1, MAX_EVENT_BYTES_MAX);
    LineIsShort(e, s.b);
    NotTornYet(s);
  }

  lemma NotTornYet(s: L.Ledger)
    requires Control(s) && s.task == Fresh
    ensures s.b.torn == 0
  {}

  lemma LineIsShort(e: Env, b: Books)
    requires Balanced(e, b) && |b.tickets| == 1
    ensures |b.tickets[0].wire| <= MAX_EVENT_BYTES_MAX
  {
    assert b.tickets[0].nbytes <= e.maxEventBytes;
  }

  /** The cutoff of a close leaves the append where it was. */
  lemma CutOff(e: Env, s: L.Ledger)
    requires Still(e) && AllWritten(e, s) && One(e, s) && s.state == Running && s.close == NoClose
    ensures var s' := Close(e, s);
      AllWritten(e, s') && One(e, s') && s'.close == CloseFresh && s'.cached == s.cached
  {
    hide Balanced, Control, Quiet, Pump;
    CutoffControl(e, s);
    var s1 := s.(state := Closing, close := CloseFresh);
    StillPump(e, s1);
    PumpEvolves(e, s1);
    OneTicket(e, Pump(e, s1).b);
  }

  lemma OneTicket(e: Env, b: Books)
    requires Balanced(e, b) && b.accepted == 1
    ensures |b.tickets| == 1
  {}

  /** Cancelling that close and caching its outcome empties the queue under the append. */
  lemma GiveUpAppending(e: Env, s: L.Ledger)
    requires AllWritten(e, s) && One(e, s) && s.close == CloseFresh && s.cached == NotCached
    ensures var s' := CacheClose(CancelClose(s));
      Inv(e, s') && LateReturn(s', DoAppendReturns) && s'.task == Appending(1)
  {
    hide Balanced, Control, Quiet, Poison;
    CancelCloseInv(e, s);
    var s1 := CancelClose(s);
    CacheCloseInv(e, s1);
    PoisonInv(e, s1, CloseInconsistency, Lowest(s1.b), None, true);
    PoisonEmpties(s1, CloseInconsistency, Lowest(s1.b));
    PoisonEvolves(s1, CloseInconsistency, Lowest(s1.b), None, true);
    OneTicket(e, CacheClose(s1).b);
  }

  const UP_TO_CLOSE := [
    DoStart(true), DoSubmit(ONE_LINE), DoConsumer, DoSinkWrites(MAX_EVENT_BYTES_MAX), DoClose, DoCancelClose]
  const LATE := UP_TO_CLOSE + [DoCacheClose, DoAppendReturns]

  /**
   Start, accept one line, let the consumer append it, begin to close, cancel the close, cache its outcome; when the
   append now returns, the ledger-invariant failure is raised.
   */
  lemma LateReturnHappens(e: Env)
    requires Still(e) && Roomy(e)
    ensures Key(1, LedgerInvariant) in Run(e, Initial, LATE).b.raised
  {
    hide Inv, LateReturn, Run, CancelClose, Close, CacheClose, AppendReturns;
    var s5 := ReadyToGiveUp(e);
    GiveUpAppending(e, s5);
    LateReturnRaises(e, CacheClose(CancelClose(s5)));
    RunAppend(e, Initial, UP_TO_CLOSE, [DoCacheClose, DoAppendReturns]);
    RunTwo(e, CancelClose(s5), DoCacheClose, DoAppendReturns);
  }

  /** The first five of those steps: the line written in full, the close just begun. */
  lemma ReadyToGiveUp(e: Env) returns (s5: L.Ledger)
    requires Still(e) && Roomy(e)
    ensures AllWritten(e, s5) && One(e, s5) && s5.close == CloseFresh && s5.cached == NotCached
    ensures Run(e, Initial, UP_TO_CLOSE) == CancelClose(s5)
  {
    hide Balanced, Control, Quiet, Submit, Start, Close, CancelClose, Run, ConsumerRuns, SinkWrites;
    Started(e);
    var s1 := Start(Initial, true);
    StillSubmit(e, s1, ONE_LINE);
    var s2 := Submit(e, s1, ONE_LINE, AdmissionPhase).0;
    TakeAndWrite(e, s2);
    var s4 := SinkWrites(ConsumerRuns(s2), MAX_EVENT_BYTES_MAX);
    CutOff(e, s4);
    s5 := Close(e, s4);
    RunSix(e, Initial, UP_TO_CLOSE);
  }
}
