/**
 * The unfailed ledger does get somewhere: in a still world everything accepted is persisted, and a close then
 * succeeds.
 */
module LedgerProgress {
  import opened Wrappers
  import opened QueuePolicy
  import opened L = Ledger
  import opened LedgerInvariant
  import opened LedgerFacts
  import opened LedgerSteps
  import opened LedgerStill

  /** Open and unfailed, with a live consumer between two appends. */
  ghost predicate Going(e: Env, s: L.Ledger) {
    Inv(e, s) && !HasFailed(s.b) && Open(s) && Live(s) && !s.task.Appending?
  }

  /** What a turn of the consumer does not touch. */
  predicate SameCourse(s: L.Ledger, s': L.Ledger) {
    s'.b.accepted == s.b.accepted && s'.state == s.state && s'.close == s.close && s'.cached == s.cached
  }

  lemma WaitingIsAdmitted(e: Env, s: L.Ledger)
    requires Roomy(e) && Inv(e, s) && !HasFailed(s.b) && Open(s) && s.b.persisted < s.b.accepted
    ensures s.b.admitted != []
  {
    if s.b.admitted == [] {
      HeadIsNext(s.b);
      TierBounds(e.tiers, s.b.tier);
    }
  }

  lemma Takes(e: Env, s: L.Ledger)
    requires Going(e, s) && s.b.admitted != []
    ensures var s' := ConsumerRuns(s);
      && Inv(e, s') && s'.task.Appending? && s' == s.(inFlight := s'.inFlight, task := s'.task, writing := s'.writing)
  {
    hide Balanced;
    ConsumerRunsInv(e, s);
  }

  lemma Writes(e: Env, s: L.Ledger)
    requires Inv(e, s) && s.task.Appending?
    ensures var s' := SinkWrites(s, MAX_EVENT_BYTES_MAX);
      && Inv(e, s') && s' == s.(b := s'.b)
      && s'.b == s.b.(file := s'.b.file, torn := s'.b.torn)
      && s.b.persisted < |s.b.tickets| && s'.b.torn == |s'.b.tickets[s.b.persisted].wire|
  {
    hide Balanced, Control, Quiet;
    SinkWritesInv(e, s, MAX_EVENT_BYTES_MAX);
    HeadLine(e, s);
    LineFits(e, s.b, s.b.persisted);
  }

  lemma HeadLine(e: Env, s: L.Ledger)
    requires Inv(e, s) && s.task.Appending?
    ensures s.writing == Some(s.b.persisted + 1) && s.b.persisted < |s.b.tickets|
    ensures s.b.torn <= |s.b.tickets[s.b.persisted].wire|
  {}

  lemma LineFits(e: Env, b: Books, i: nat)
    requires Balanced(e, b) && i < |b.tickets|
    ensures |b.tickets[i].wire| <= MAX_EVENT_BYTES_MAX
  {
    assert b.tickets[i].nbytes <= e.maxEventBytes;
  }

  lemma Returns(e: Env, s: L.Ledger)
    requires Still(e) && Inv(e, s) && !HasFailed(s.b) && Open(s) && Live(s) && s.task.Appending?
    requires s.b.persisted < |s.b.tickets| && s.b.torn == |s.b.tickets[s.b.persisted].wire|
    ensures var s' := AppendReturns(e, s);
      Going(e, s') && SameCourse(s, s') && s'.b.persisted == s.b.persisted + 1
  {
    hide Balanced, Control, Quiet, Pump, CheckPasses;
    AppendReturnsInv(e, s);
    AckGuard(e, s);
    Writing(s);
    var s1 := Returned(s).(b := AckHead(s.b), inFlight := None);
    AckBalanced(e, s.b);
    AckControl(e, s);
    CheckNeverTrips(e, s1, s.task.seqNo);
    StillPump(e, s1);
    assert AppendReturns(e, s) == Pump(e, s1).(wakeup := true);
  }

  lemma Writing(s: L.Ledger)
    requires Control(s) && s.task.Appending?
    ensures s.writing == Some(s.task.seqNo) && (s.b.admitted == [] ==> s.inFlight.None?)
  {}

  /** The consumer's turn with a working sink. */
  const TURN := [DoConsumer, DoSinkWrites(MAX_EVENT_BYTES_MAX), DoAppendReturns]

  lemma RunThree(e: Env, s: L.Ledger, a: Action, b: Action, c: Action)
    ensures Run(e, s, [a, b, c]) == Step(e, Step(e, Step(e, s, a), b), c)
  {
    hide Step, Run;
    assert [a, b, c] == [a, b] + [c];
    RunAppend(e, s, [a, b], [c]);
    RunTwo(e, s, a, b);
    RunLast(e, Step(e, Step(e, s, a), b), c);
  }

  lemma RunLast(e: Env, s: L.Ledger, a: Action)
    ensures Run(e, s, [a]) == Step(e, s, a)
  {
    hide Step;
    assert [a][1..] == [];
    assert Run(e, Step(e, s, a), []) == Step(e, s, a);
  }

  /** Each turn persists one more line, and nothing fails. */
  lemma TurnPersists(e: Env, s: L.Ledger)
    requires Still(e) && Roomy(e) && Going(e, s) && s.b.persisted < s.b.accepted
    ensures var s' := Run(e, s, TURN);
      Going(e, s') && SameCourse(s, s') && s'.b.persisted == s.b.persisted + 1
  {
    hide Balanced, Control, Quiet, ConsumerRuns, SinkWrites, AppendReturns, Run;
    WaitingIsAdmitted(e, s);
    Takes(e, s);
    var s1 := ConsumerRuns(s);
    Writes(e, s1);
    var s2 := SinkWrites(s1, MAX_EVENT_BYTES_MAX);
    AppendingIsLive(s2);
    Returns(e, s2);
    RunThree(e, s, DoConsumer, DoSinkWrites(MAX_EVENT_BYTES_MAX), DoAppendReturns);
  }

  lemma AppendingIsLive(s: L.Ledger)
    requires Control(s) && s.task.Appending?
    ensures Live(s)
  {}

  function Turns(n: nat): seq<Action> {
    if n == 0 then [] else TURN + Turns(n - 1)
  }

  /** From every such state, as many turns as there are lines left persist everything accepted, without a failure. */
  lemma {:induction false} EverythingIsPersisted(e: Env, s: L.Ledger)
    requires Still(e) && Roomy(e) && Going(e, s) && s.b.persisted <= s.b.accepted
    ensures var s' := Run(e, s, Turns(s.b.accepted - s.b.persisted));
      Going(e, s') && SameCourse(s, s') && s'.b.persisted == s.b.accepted
    decreases s.b.accepted - s.b.persisted
  {
    hide Still, Going, Run;
    var n := s.b.accepted - s.b.persisted;
    if n > 0 {
      TurnPersists(e, s);
      EverythingIsPersisted(e, Run(e, s, TURN));
      RunAppend(e, s, TURN, Turns(n - 1));
    } else {
      NoTurns(e, s);
    }
  }

  lemma NoTurns(e: Env, s: L.Ledger)
    ensures Run(e, s, Turns(0)) == s
  {}

  // ---- and a close then succeeds -----------------------------------------

  const CLOSE := [DoClose, DoCloseRuns, DoConsumer, DoCloseRuns, DoCacheClose]

  lemma AllDone(e: Env, b: Books)
    requires Balanced(e, b) && !HasFailed(b) && b.persisted == b.accepted
    ensures b.pending == [] && b.admitted == []
  {}

  /** The cutoff of a ledger with nothing left to do. */
  lemma CutsOff(e: Env, s: L.Ledger)
    requires Still(e) && Going(e, s) && s.state == Running && s.close == NoClose && s.b.persisted == s.b.accepted
    ensures var s' := Close(e, s);
      && Going(e, s') && s'.state == Closing && s'.close == CloseFresh && s'.cached == s.cached
      && s'.b.persisted == s'.b.accepted == s.b.accepted
  {
    hide Balanced, Control, Quiet, Pump;
    CutoffControl(e, s);
    StillPump(e, s.(state := Closing, close := CloseFresh));
  }

  /** From there the close task, the consumer, the close task again and its callback end in success. */
  lemma EndsWell(e: Env, s: L.Ledger)
    requires Going(e, s) && s.state == Closing && s.close == CloseFresh && s.cached == NotCached
    requires s.b.persisted == s.b.accepted
    ensures var s' := CacheClose(CloseRuns(e, ConsumerRuns(CloseRuns(e, s))));
      s'.cached == Succeeded && s'.b == s.b
  {
    hide Balanced, Quiet, Pump, Poison;
    AllDone(e, s.b);
  }

  lemma PersistedAtMost(e: Env, b: Books)
    requires Balanced(e, b)
    ensures b.persisted <= b.accepted
  {}

  /**
   * From every such running state there is a run that accepts no more, persists all of it and caches a successful
   * close.
   */
  lemma CloseSucceeds(e: Env, s: L.Ledger)
    requires Still(e) && Roomy(e) && Going(e, s) && s.state == Running && s.close == NoClose && s.cached == NotCached
    ensures s.b.persisted <= s.b.accepted
    ensures var s' := Run(e, s, Turns(s.b.accepted - s.b.persisted) + CLOSE);
      s'.cached == Succeeded && s'.b.persisted == s'.b.accepted == s.b.accepted
  {
    hide Balanced, Control, Quiet, Still, Run, Turns, Close, CloseRuns, ConsumerRuns, CacheClose;
    PersistedAtMost(e, s.b);
    EverythingIsPersisted(e, s);
    var n := s.b.accepted - s.b.persisted;
    var s1 := Run(e, s, Turns(n));
    CutsOff(e, s1);
    var s2 := Close(e, s1);
    EndsWell(e, s2);
    RunAppend(e, s, Turns(n), CLOSE);
    var s4 := ConsumerRuns(CloseRuns(e, s2));
    assert CLOSE == [DoClose, DoCloseRuns, DoConsumer] + [DoCloseRuns, DoCacheClose];
    RunAppend(e, s1, [DoClose, DoCloseRuns, DoConsumer], [DoCloseRuns, DoCacheClose]);
    RunThree(e, s1, DoClose, DoCloseRuns, DoConsumer);
    RunTwo(e, s4, DoCloseRuns, DoCacheClose);
  }

  const ONE_ACCEPTED := [DoStart(true), DoSubmit(ONE_LINE)]

  /** So success with a line accepted is reached from the start. */
  lemma SuccessIsReached(e: Env)
    requires Still(e) && Roomy(e)
    ensures var s := Run(e, Initial, ONE_ACCEPTED + (Turns(1) + CLOSE));
      s.cached == Succeeded && s.b.accepted == 1 == s.b.persisted
  {
    hide Balanced, Control, Quiet, Run, Submit, Start, Turns;
    Started(e);
    var s1 := Start(Initial, true);
    StillSubmit(e, s1, ONE_LINE);
    var s2 := Submit(e, s1, ONE_LINE, AdmissionPhase).0;
    CloseSucceeds(e, s2);
    RunTwo(e, Initial, DoStart(true), DoSubmit(ONE_LINE));
    RunAppend(e, Initial, ONE_ACCEPTED, Turns(1) + CLOSE);
  }
}
