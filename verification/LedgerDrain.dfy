/** An admission-layer failure does not cost what was already admitted. */
module LedgerDrain {
  import opened Wrappers
  import opened Ledger
  import opened LedgerInvariant
  import opened LedgerFacts
  import opened LedgerSteps

  /** A failed ledger whose live consumer has been told to drain. */
  ghost predicate Draining(e: Env, s: Ledger) {
    Inv(e, s) && HasFailed(s.b) && s.drain && (s.task == Fresh || s.task == Ready || s.task == Idle)
  }

  /** A working sink: the append under way, if any, writes the rest of its line and returns. */
  function FinishAppend(e: Env, s: Ledger): Ledger {
    if s.writing.Some? && 1 <= s.writing.value <= |s.b.tickets|
    then AppendReturns(e, SinkWrites(s, |s.b.tickets[s.writing.value - 1].wire|)) else s
  }

  /** The consumer's turn with a working sink: take the head, write its whole line, return. */
  function Round(e: Env, s: Ledger): Ledger {
    FinishAppend(e, ConsumerRuns(s))
  }

  function Rounds(e: Env, s: Ledger, n: nat): Ledger
    decreases n
  {
    if n == 0 then s else Rounds(e, Round(e, s), n - 1)
  }

  lemma TakeHead(e: Env, s: Ledger)
    requires Draining(e, s) && s.b.admitted != []
    ensures var s1 := ConsumerRuns(s);
      && s1 == s.(inFlight := s1.inFlight, task := s1.task, writing := s1.writing)
      && Inv(e, s1) && s1.task.Appending?
  {
    ConsumerRunsInv(e, s);
  }

  lemma WritingHead(e: Env, s: Ledger)
    requires Inv(e, s) && s.task.Appending?
    ensures s.writing == Some(s.b.persisted + 1) && s.b.persisted < s.b.admittedHigh <= |s.b.tickets|
    ensures s.b.torn <= |s.b.tickets[s.b.persisted].wire|
  {}

  lemma WriteHead(e: Env, s: Ledger)
    requires Inv(e, s) && s.task.Appending? && s.b.persisted < |s.b.tickets|
    ensures var s1 := SinkWrites(s, |s.b.tickets[s.b.persisted].wire|);
      && Inv(e, s1)
      && s1 == s.(b := s1.b) && s1.b.tickets == s.b.tickets && s1.b.admitted == s.b.admitted
      && s1.b.admittedHigh == s.b.admittedHigh && s1.b.persisted == s.b.persisted && s1.b.primary == s.b.primary
      && s1.b.torn == |s.b.tickets[s.b.persisted].wire|
  {
    hide Balanced, Control, Quiet;
    WritingHead(e, s);
    SinkWritesInv(e, s, |s.b.tickets[s.b.persisted].wire|);
  }

  /** In a failed ledger an acknowledgement pops exactly the head and pumps nothing. */
  lemma ReturnHead(e: Env, s: Ledger)
    requires Inv(e, s) && HasFailed(s.b) && s.drain && s.task.Appending? && s.b.admitted != []
    requires s.b.persisted < |s.b.tickets| && s.b.torn == |s.b.tickets[s.b.persisted].wire|
    ensures var s1 := AppendReturns(e, s);
      && Draining(e, s1) && s1.b.admitted == s.b.admitted[1..]
      && s1.b.admittedHigh == s.b.admittedHigh && s1.b.persisted == s.b.persisted + 1
  {
    AppendReturnsInv(e, s);
    AckGuard(e, s);
    AckBalanced(e, s.b);
    AckControl(e, s);
    var s0 := Returned(s).(b := AckHead(s.b), inFlight := None);
    CheckNeverTrips(e, s0, s.task.seqNo);
    FailedIsShut(s);
    hide Balanced, Control, CheckPasses;
    assert AppendReturns(e, s) == DisarmTimer(s0).(wakeup := true);
  }

  lemma FailedIsShut(s: Ledger)
    requires Control(s) && HasFailed(s.b)
    ensures !Open(s)
  {}

  /** One finished append: exactly the head moves from admitted to persisted. */
  ghost predicate OneFewer(e: Env, s: Ledger, s1: Ledger) {
    && Draining(e, s1) && s.b.admitted != [] && s1.b.admitted == s.b.admitted[1..]
    && s1.b.admittedHigh == s.b.admittedHigh && s1.b.persisted == s.b.persisted + 1
  }

  lemma FinishDrains(e: Env, s: Ledger)
    requires Inv(e, s) && HasFailed(s.b) && s.drain && s.task.Appending? && s.b.admitted != []
    ensures OneFewer(e, s, FinishAppend(e, s))
  {
    hide Balanced, Control, Quiet, AppendReturns, SinkWrites;
    WritingHead(e, s);
    WriteHead(e, s);
    ReturnHead(e, SinkWrites(s, |s.b.tickets[s.b.persisted].wire|));
  }

  lemma RoundDrains(e: Env, s: Ledger)
    requires Draining(e, s) && s.b.admitted != []
    ensures OneFewer(e, s, Round(e, s))
  {
    hide Balanced, Control, Quiet, FinishAppend, ConsumerRuns;
    TakeHead(e, s);
    FinishDrains(e, ConsumerRuns(s));
  }

  lemma QueueLength(e: Env, b: Books)
    requires Balanced(e, b)
    ensures b.admitted != [] ==> |b.admitted| == b.admittedHigh - b.persisted
    ensures b.admitted == [] && !HasFailed(b) ==> b.persisted == b.admittedHigh
  {}

  lemma {:induction false} RoundsDrain(e: Env, s: Ledger)
    requires Draining(e, s)
    ensures var s1 := Rounds(e, s, |s.b.admitted|);
      Draining(e, s1) && s1.b.admitted == [] && s1.b.persisted == s.b.persisted + |s.b.admitted|
    decreases |s.b.admitted|
  {
    hide Inv, Round;
    if s.b.admitted != [] {
      RoundDrains(e, s);
      RoundsDrain(e, Round(e, s));
    }
  }

  ghost predicate AllPersisted(e: Env, s: Ledger, high: nat) {
    && s.b.persisted == high <= |s.b.tickets| && s.b.admitted == []
    && (forall i: nat :: i < high ==> Good(s.b.tickets[i].persistence, i + 1))
    && ConsumerRuns(s).consumer == ExitedFailureDrain
  }

  lemma Drained(e: Env, s: Ledger)
    requires Draining(e, s) && s.b.admitted == []
    ensures AllPersisted(e, s, s.b.persisted)
  {
    forall i: nat | i < s.b.persisted ensures Good(s.b.tickets[i].persistence, i + 1) { assert PhaseOk(s.b, i); }
  }

  lemma PoisonDrains(e: Env, s: Ledger, code: Code, ordinal: int, victim: Option<nat>)
    requires Balanced(e, s.b) && Control(s) && !HasFailed(s.b) && Live(s)
    ensures var p := Poison(s, code, ordinal, victim, false);
      Inv(e, p) && HasFailed(p.b) && p.drain && Live(p) && p.task == s.task && p.b.admitted == s.b.admitted
      && p.b.persisted == s.b.persisted && p.b.admittedHigh == s.b.admittedHigh
  {
    PoisonInv(e, s, code, ordinal, victim, false);
    hide Inv;
  }

  // ---- every run after the failure ---------------------------------------

  /** A failed ledger that has lost nothing of what was admitted up to `high`. */
  ghost predicate Kept(e: Env, s: Ledger, high: nat) {
    && Inv(e, s) && HasFailed(s.b) && s.drain && s.b.admittedHigh == high && s.task != NoTask
    && (s.b.admitted == [] ==> s.b.persisted == high)
    && (s.task.Done? ==> s.b.admitted == [])
  }

  // ---- the failing step: whatever fails, a live consumer is told to drain --

  /** If this step failed the ledger, it kept the admitted queue and told the live consumer to drain it. */
  ghost predicate FailsSoftly(s: Ledger) {
    HasFailed(s.b) ==> s.drain && Live(s) && (s.b.admitted == [] ==> s.b.persisted == s.b.admittedHigh)
  }

  lemma PoisonSoftly(e: Env, s: Ledger, code: Code, ordinal: int, victim: Option<nat>)
    requires Balanced(e, s.b) && Control(s) && !HasFailed(s.b) && Live(s)
    ensures FailsSoftly(Poison(s, code, ordinal, victim, false))
  {
    hide Balanced, Control, Quiet, Poison;
    PoisonDrains(e, s, code, ordinal, victim);
    QueueLength(e, s.b);
  }

  lemma {:induction false} LoopSoftly(e: Env, s: Ledger)
    requires Balanced(e, s.b) && Control(s) && Open(s) && !HasFailed(s.b) && Live(s)
    ensures FailsSoftly(PumpLoop(e, s).s)
    decreases |s.b.pending|, |e.tiers.capacities| - s.b.tier
  {
    hide Balanced, Control, Poison;
    if HasHead(s.b) {
      var s1 := s.(b := Tick(s.b));
      TickBalanced(e, s.b);
      BooksControl(s, s1.b);
      match e.clock(s.b.ticks)
      case None => PoisonSoftly(e, s1, LedgerInvariant, Head(s.b).seqNo, None);
      case Some(now) =>
        if now >= Head(s.b).deadline {
          PoisonSoftly(e, s1, ProducerTimeout, Head(s.b).seqNo, Some(s.b.pending[0]));
        } else if Room(e, s.b, Head(s.b).nbytes) {
          AdmitBalanced(e, s1.b, s.b.ticks);
          AdmitControl(e, s1, s.b.ticks);
          LoopSoftly(e, s1.(b := AdmitHead(s1.b, s.b.ticks), wakeup := true));
        } else if CanGrow(e, s) {
          GrowBalanced(e, s1.b);
          BooksControl(s1, Grow(s1.b));
          LoopSoftly(e, s1.(b := Grow(s1.b)));
        }
    }
  }

  lemma RearmSoftly(e: Env, s: Ledger)
    requires Balanced(e, s.b) && Control(s) && Open(s) && !HasFailed(s.b) && Live(s)
    ensures FailsSoftly(Rearm(e, s))
  {
    hide Balanced, Control, Poison;
    var s1 := DisarmTimer(s);
    DisarmControl(s, s1);
    if HasHead(s.b) {
      PoisonSoftly(e, s1, LedgerInvariant, s.b.pending[0], None);
    }
  }

  lemma PumpSoftly(e: Env, s: Ledger)
    requires Balanced(e, s.b) && Control(s) && !HasFailed(s.b) && Live(s)
    ensures FailsSoftly(Pump(e, s))
  {
    hide Balanced, Control, CheckPasses, Rearm, Live, Poison;
    if Open(s) {
      LoopSoftly(e, s);
      LoopInv(e, s);
      var exit := PumpLoop(e, s);
      if !exit.poisoned {
        var s1 := exit.s.(pendingEmpty := exit.s.b.pending == []);
        DisarmControl(exit.s, s1);
        RearmInv(e, s1);
        StillLiveAfter(s, s1);
        if !HasFailed(s1.b) { RearmSoftly(e, s1); }
        CheckNeverTrips(e, Rearm(e, s1), Lowest(Rearm(e, s1).b));
        OpenIsUnfailed(s1);
      }
    }
  }

  lemma OpenIsUnfailed(s: Ledger)
    requires Control(s) && Open(s)
    ensures !HasFailed(s.b)
  {}

  /** The pump does not touch the consumer. */
  lemma StillLiveAfter(s: Ledger, s': Ledger)
    requires s'.consumer == s.consumer && s'.consumerRef == s.consumerRef && s'.task == s.task && Live(s)
    ensures Live(s')
  {}

  lemma AcceptSoftly(e: Env, s: Ledger, wire: string, phase: Phase)
    requires Inv(e, s) && Accepting(s) && Live(s) && |wire| <= e.maxEventBytes
    ensures FailsSoftly(AcceptChecked(e, s, wire, phase).0)
  {
    hide Balanced, Control, Poison, Pump, CheckPasses, Quiet, Live, Commit;
    var n := s.b.accepted + 1;
    PoisonSoftly(e, s, MaxEvents, n, None);
    PoisonSoftly(e, s, SaturatedCount, n, None);
    PoisonSoftly(e, s, SaturatedBytes, n, None);
    if s.b.accepted < e.maxEvents && |s.b.pending| < e.tiers.policy.maxEventCapacity
      && s.b.pendingBytes + s.b.queuedBytes + |wire| <= e.tiers.policy.maxQueuedBytes && e.clock(s.b.ticks).Some?
    {
      CommitParts(e, s, wire);
      DeadlinesInOrder(e, s.b, e.clock(s.b.ticks).value);
      CommittedLive(e, s, wire);
      PumpSoftly(e, Committed(e, s, wire));
    }
  }

  lemma CommittedLive(e: Env, s: Ledger, wire: string)
    requires Live(s) && e.clock(s.b.ticks).Some? && !HasFailed(s.b)
    ensures Live(Committed(e, s, wire)) && !HasFailed(Committed(e, s, wire).b)
  {}

  lemma SubmitSoftly(e: Env, s: Ledger, ev: Event, phase: Phase)
    requires Inv(e, s) && !HasFailed(s.b) && Live(s)
    ensures FailsSoftly(Submit(e, s, ev, phase).0)
  {
    hide Balanced, Control, Poison, Pump, Quiet, Live, Prepare, AcceptChecked;
    if Accepting(s) {
      PumpSoftly(e, s);
      PumpInv(e, s);
      var s1 := Pump(e, s);
      if Accepting(s1) {
        StillLiveAfter(s, s1);
        PumpSoftly(e, s1);
        PumpInv(e, s1);
        StillLiveAfter(s1, Pump(e, s1));
        match Prepare(e, ev, s1.b.accepted + 1)
        case Err(code) => PoisonSoftly(e, s1, code, s1.b.accepted + 1, None);
        case Ok(wire) =>
          PreparedFits(e, ev, s1.b.accepted + 1);
          if Accepting(Pump(e, s1)) { AcceptSoftly(e, Pump(e, s1), wire, phase); }
      }
    }
  }

  lemma PreparedFits(e: Env, ev: Event, n: nat)
    ensures Prepare(e, ev, n).Ok? ==> |Prepare(e, ev, n).value| <= e.maxEventBytes
  {}

  lemma AckSoftly(e: Env, s: Ledger)
    requires Inv(e, s) && !HasFailed(s.b) && Live(s)
    ensures FailsSoftly(AppendReturns(e, s))
  {
    hide Balanced, Control, Quiet, Pump, CheckPasses, Poison, Live;
    if s.task.Appending? {
      AckGuard(e, s);
      if s.writing == Some(s.task.seqNo) && s.b.torn == |s.b.tickets[s.b.persisted].wire| {
        var s1 := Returned(s).(b := AckHead(s.b), inFlight := None);
        AckBalanced(e, s.b);
        AckControl(e, s);
        CheckNeverTrips(e, s1, s.task.seqNo);
        ReturnedLive(s, s1);
        PumpSoftly(e, s1);
        assert AppendReturns(e, s) == Pump(e, s1).(wakeup := true);
        StillSoft(Pump(e, s1));
      }
    }
  }

  lemma ReturnedLive(s: Ledger, s1: Ledger)
    requires Live(s) && s1.task == Ready && s1.consumer == s.consumer && s1.consumerRef == s.consumerRef
    ensures Live(s1)
  {}

  lemma StillSoft(s: Ledger)
    requires FailsSoftly(s)
    ensures FailsSoftly(s.(wakeup := true))
  {}

  lemma CutoffSoftly(e: Env, s: Ledger)
    requires Inv(e, s) && !HasFailed(s.b) && Live(s)
    ensures FailsSoftly(Close(e, s))
  {
    hide Balanced, Control, Quiet, Pump, Poison;
    if s.close == NoClose && (s.state == New || s.state == Running) {
      CutoffControl(e, s);
      PumpSoftly(e, s.(state := Closing, close := CloseFresh));
    }
  }

  lemma DrainsSoftly(e: Env, s: Ledger)
    requires Inv(e, s) && !HasFailed(s.b) && Live(s)
    ensures FailsSoftly(CloseDrains(e, s))
  {
    hide Balanced, Control, Quiet, Pump;
    var s0 := s.(pendingEmpty := false);
    DisarmControl(s, s0);
    PumpSoftly(e, s0);
  }

  lemma CloseRunsSoftly(e: Env, s: Ledger)
    requires Inv(e, s) && !HasFailed(s.b) && Live(s)
    ensures FailsSoftly(CloseRuns(e, s))
  {
    hide Inv, CloseDrains, CloseFinish, CloseFails, Poison;
    DrainsSoftly(e, s);
  }

  lemma ConsumerSoftly(e: Env, s: Ledger)
    requires Inv(e, s) && !HasFailed(s.b) && Live(s)
    ensures FailsSoftly(ConsumerRuns(s))
  {
    hide Balanced, Quiet, Poison;
  }

  /** Any step but a failing sink, a cancelled consumer or the caching of a cancelled close. */
  lemma StepSoftly(e: Env, s: Ledger, a: Action)
    requires Inv(e, s) && !HasFailed(s.b) && Live(s) && Benign(a) && !a.DoCacheClose?
    ensures FailsSoftly(Step(e, s, a))
  {
    hide Balanced, Control, Quiet, Poison, Pump, Submit, AppendReturns, ConsumerRuns, Close, CloseRuns, SinkWrites;
    match a
    case DoStart(created) => RunningTask(s);
    case DoSubmit(ev) => SubmitSoftly(e, s, ev, AdmissionPhase);
    case DoEmitAwaited(ev) => SubmitSoftly(e, s, ev, PersistencePhase);
    case DoTimer(generation) =>
      DisarmControl(s, s.(timer := None));
      PumpSoftly(e, s.(timer := None));
    case DoConsumer => ConsumerSoftly(e, s);
    case DoSinkWrites(n) => WritingNeverFails(s, n);
    case DoAppendReturns => AckSoftly(e, s);
    case DoClose => CutoffSoftly(e, s);
    case DoCloseRuns => CloseRunsSoftly(e, s);
    case _ =>
  }

  lemma WritingNeverFails(s: Ledger, n: nat)
    ensures SinkWrites(s, n).b.primary == s.b.primary
  {}

  lemma FailureKeeps(e: Env, s: Ledger)
    requires Inv(e, s) && HasFailed(s.b) && FailsSoftly(s)
    ensures Kept(e, s, s.b.admittedHigh)
  {}

  lemma FailedRefuses(e: Env, s: Ledger, ev: Event, phase: Phase)
    requires HasFailed(s.b)
    ensures Submit(e, s, ev, phase).0 == s
  {}

  /** Giving up on the admitted queue costs nothing once it is empty. */
  lemma EmptyPoisonKeeps(e: Env, s: Ledger, high: nat, code: Code, ordinal: int)
    requires Kept(e, s, high) && s.b.admitted == []
    ensures var p := Poison(s, code, ordinal, None, true);
      && p.b.admitted == [] && p.b.persisted == s.b.persisted && p.b.admittedHigh == high
      && HasFailed(p.b) && p.drain && p.task == s.task
  {}

  lemma EmitKeeps(e: Env, s: Ledger, high: nat, ev: Event)
    requires Kept(e, s, high)
    ensures Kept(e, EmitAwaited(e, s, ev).0, high)
  {
    hide Balanced, Control, Quiet, Poison, Submit;
    EmitAwaitedInv(e, s, ev);
    if Live(s) {
      FailedRefuses(e, s, ev, PersistencePhase);
    } else {
      DeadIsEmpty(e, s, high);
      EmptyPoisonKeeps(e, s, high, NoConsumer, s.b.accepted + 1);
    }
  }

  lemma DeadIsEmpty(e: Env, s: Ledger, high: nat)
    requires Kept(e, s, high) && (!Live(s) || !s.consumerRef || s.task.Done?)
    ensures s.b.admitted == [] && s.consumer != NotStarted
  {}

  lemma RunningTask(s: Ledger)
    requires Control(s) && s.task != NoTask
    ensures s.consumer != NotStarted
  {}

  lemma AppendKeeps(e: Env, s: Ledger, high: nat)
    requires Kept(e, s, high)
    ensures Kept(e, AppendReturns(e, s), high)
  {
    hide Balanced, Control, Quiet, AppendReturns;
    if s.task.Appending? {
      WritingHead(e, s);
      if s.b.torn == |s.b.tickets[s.b.persisted].wire| {
        ReturnHead(e, s);
        QueueLength(e, s.b);
      } else {
        NotYet(e, s);
      }
    } else {
      NotYet(e, s);
    }
  }

  lemma NotYet(e: Env, s: Ledger)
    requires Inv(e, s)
    requires !s.task.Appending? || (s.b.persisted < |s.b.tickets| && s.b.torn != |s.b.tickets[s.b.persisted].wire|)
    ensures AppendReturns(e, s) == s
  {}

  lemma ConsumerKeeps(e: Env, s: Ledger, high: nat)
    requires Kept(e, s, high)
    ensures Kept(e, ConsumerRuns(s), high) && Kept(e, ConsumerDone(s), high)
  {
    hide Balanced, Quiet, Poison;
    ConsumerRunsInv(e, s);
    ConsumerDoneInv(e, s);
    if s.task.Done? {
      EmptyPoisonKeeps(e, s, high, ConsumerCancelled, Lowest(s.b));
      EmptyPoisonKeeps(e, s, high, UnexpectedConsumerExit, Lowest(s.b));
    }
  }

  lemma CloseRunsKeeps(e: Env, s: Ledger, high: nat)
    requires Kept(e, s, high)
    ensures Kept(e, CloseRuns(e, s), high)
  {
    hide Balanced, Control, Quiet, Poison, Pump;
    CloseRunsInv(e, s);
    NothingPending(e, s);
    RunningTask(s);
    if !s.consumerRef || s.task.Done? {
      DeadIsEmpty(e, s, high);
      EmptyPoisonKeeps(e, s, high, CloseInconsistency, Lowest(s.b));
      EmptyPoisonKeeps(e, s, high, ConsumerCancelled, Lowest(s.b));
    }
  }

  lemma NothingPending(e: Env, s: Ledger)
    requires Inv(e, s) && HasFailed(s.b)
    ensures s.b.pending == [] && !Open(s)
  {}

  lemma SinkKeeps(e: Env, s: Ledger, high: nat, n: nat)
    requires Kept(e, s, high)
    ensures Kept(e, SinkWrites(s, n), high)
  {
    hide Balanced, Control, Quiet;
    SinkWritesInv(e, s, n);
  }

  /** The sink does not fail and nobody cancels the consumer: whatever else happens, close cancelled included. */
  predicate Benign(a: Action) {
    !a.DoAppendRaises? && !a.DoCancelConsumer?
  }

  lemma StepKeeps(e: Env, s: Ledger, high: nat, a: Action)
    requires Kept(e, s, high) && Benign(a)
    ensures Kept(e, Step(e, s, a), high)
  {
    hide Balanced, Control, Quiet, Poison, Submit, EmitAwaited, AppendReturns, ConsumerRuns, ConsumerDone, CloseRuns,
      SinkWrites;
    StepInv(e, s, a);
    NothingPending(e, s);
    match a
    case DoStart(created) => RunningTask(s);
    case DoSubmit(ev) => FailedRefuses(e, s, ev, AdmissionPhase);
    case DoEmitAwaited(ev) => EmitKeeps(e, s, high, ev);
    case DoConsumer => ConsumerKeeps(e, s, high);
    case DoConsumerDone => ConsumerKeeps(e, s, high);
    case DoSinkWrites(n) => SinkKeeps(e, s, high, n);
    case DoAppendReturns => AppendKeeps(e, s, high);
    case DoCloseRuns => CloseRunsKeeps(e, s, high);
    case _ =>
  }

  lemma {:induction false} RunKeeps(e: Env, s: Ledger, high: nat, actions: seq<Action>)
    requires Kept(e, s, high) && (forall i :: 0 <= i < |actions| ==> Benign(actions[i]))
    ensures Kept(e, Run(e, s, actions), high)
    decreases |actions|
  {
    hide Kept, Step;
    if actions != [] {
      StepKeeps(e, s, high, actions[0]);
      RunKeeps(e, Step(e, s, actions[0]), high, actions[1..]);
    }
  }

  /** The admitted prefix is untouched: what is not yet persisted is still queued, in order. */
  ghost predicate Undiminished(s: Ledger, high: nat) {
    && s.b.admittedHigh == high && s.b.persisted <= high <= |s.b.tickets|
    && s.b.admitted == Range(s.b.persisted, high)
    && (forall i: nat :: i < s.b.persisted ==> Good(s.b.tickets[i].persistence, i + 1))
  }

  lemma KeptMeans(e: Env, s: Ledger, high: nat)
    requires Kept(e, s, high)
    ensures Undiminished(s, high) && (s.task.Done? ==> s.b.persisted == high)
  {
    forall i: nat | i < s.b.persisted
      ensures Good(s.b.tickets[i].persistence, i + 1)
    {
      assert PhaseOk(s.b, i);
    }
  }

  /**
   Whatever step fails a ledger with a live consumer, be it a refused or unrenderable line, a full queue, an expired
   deadline noticed by any pump, a broken clock or timer, so long as it is not the sink, a cancelled consumer or the
   caching of a cancelled close: then in every run after it in which the sink does not fail and nobody cancels the
   consumer, of what was admitted by then nothing is ever dropped, everything persisted settled well, and by the time
   the queue is empty or the consumer is done the whole admitted prefix is persisted.
   */
  lemma AdmissionFailureStillDrains(e: Env, before: seq<Action>, a: Action, after: seq<Action>)
    requires ValidEnv(e) && Benign(a) && !a.DoCacheClose?
    requires var s := Run(e, Initial, before);
      !HasFailed(s.b) && Live(s) && HasFailed(Step(e, s, a).b)
    requires forall i :: 0 <= i < |after| ==> Benign(after[i])
    ensures var f := Step(e, Run(e, Initial, before), a);
      var s' := Run(e, f, after);
      && Undiminished(s', f.b.admittedHigh)
      && (s'.b.admitted == [] || s'.task.Done? ==> s'.b.persisted == f.b.admittedHigh)
  {
    hide Inv, Kept, Run, Step, Live, FailsSoftly;
    InitialInv(e);
    RunInv(e, Initial, before);
    var s := Run(e, Initial, before);
    var f := Step(e, s, a);
    StepInv(e, s, a);
    StepSoftly(e, s, a);
    FailureKeeps(e, f);
    RunKeeps(e, f, f.b.admittedHigh, after);
    KeptMeans(e, Run(e, f, after), f.b.admittedHigh);
  }

  /** From any point of such a run at which the consumer still lives, its turns with a working sink finish the drain. */
  lemma DrainCanFinish(e: Env, s: Ledger, high: nat)
    requires Kept(e, s, high) && !s.task.Done?
    ensures exists n: nat :: AllPersisted(e, Rounds(e, FinishAppend(e, s), n), high)
  {
    hide Balanced, Control, Quiet, AllPersisted, FinishAppend, Rounds, ConsumerRuns;
    QueueLength(e, s.b);
    StillLive(s);
    LiveTask(s);
    if s.task.Appending? {
      WritingHead(e, s);
      FinishDrains(e, s);
    } else {
      NotWriting(e, s);
    }
    var f := FinishAppend(e, s);
    RoundsDrain(e, f);
    Drained(e, Rounds(e, f, |f.b.admitted|));
    assert f.b.admitted == [] ==> f.b.persisted == high;
    QueueLength(e, f.b);
  }

  lemma StillLive(s: Ledger)
    requires Control(s) && s.task != NoTask && !s.task.Done?
    ensures Live(s)
  {}

  lemma LiveTask(s: Ledger)
    requires Control(s) && Live(s)
    ensures s.task == Fresh || s.task == Ready || s.task == Idle || s.task.Appending?
  {}

  lemma NotWriting(e: Env, s: Ledger)
    requires Control(s) && Live(s) && !s.task.Appending?
    ensures FinishAppend(e, s) == s
  {}
}
