/**
 Which failures are never raised: with a working clock and timer, neither the
 runtime self-check nor the deadline-order check ever fires, and the
 acknowledgement guard fires exactly when an append returns to a ledger whose
 queue a cancelled close has already given up.
 */
module LedgerCodes {
  import opened Wrappers
  import opened Ledger
  import opened LedgerInvariant
  import opened LedgerFacts
  import opened LedgerSteps
  import opened LedgerHistory

  ghost predicate Healthy(e: Env) {
    (forall i: nat :: e.clock(i).Some?) && (forall g: nat :: e.arm(g))
  }

  ghost predicate Expected(code: Code) {
    code != LedgerInvariant && code != MarkerTooLarge && code != UnexpectedConsumerExit
  }

  ghost predicate AllExpected(raised: seq<Key>) {
    forall k :: k in raised ==> Expected(k.code)
  }

  /** The close task was cancelled, and its outcome was cached as a failure. */
  ghost predicate GivenUp(s: Ledger) {
    s.close == CloseDone(CloseCancelled) && s.cached.FailedWith?
  }

  ghost predicate Calm(s: Ledger) {
    AllExpected(s.b.raised) && (s.task.Appending? && s.b.admitted == [] ==> GivenUp(s))
  }

  /** An append whose line is complete returns after the close was given up and the queue emptied under it. */
  ghost predicate LateReturn(s: Ledger, a: Action) {
    && a == DoAppendReturns && s.task.Appending? && s.b.admitted == [] && GivenUp(s)
    && 1 <= s.task.seqNo <= |s.b.tickets| && s.b.torn == |s.b.tickets[s.task.seqNo - 1].wire|
  }

  /** Raised codes stay expected, and a running consumer keeps what it was given. */
  ghost predicate StaysCalm(s: Ledger, s': Ledger) {
    && (AllExpected(s.b.raised) ==> AllExpected(s'.b.raised))
    && (s.consumer == ConsumerRunning && s.b.admitted != [] ==> s'.b.admitted != [])
    && s'.consumer == s.consumer && s'.task == s.task && s'.close == s.close && s'.cached == s.cached
  }

  lemma PoisonCalm(s: Ledger, code: Code, ordinal: int, victim: Option<nat>, impossible: bool)
    requires Expected(code)
    ensures AllExpected(s.b.raised) ==> AllExpected(Poison(s, code, ordinal, victim, impossible).b.raised)
    ensures !impossible ==> StaysCalm(s, Poison(s, code, ordinal, victim, impossible))
  {}

  lemma {:induction false} LoopCalm(e: Env, s: Ledger)
    requires Healthy(e)
    ensures StaysCalm(s, PumpLoop(e, s).s)
    decreases |s.b.pending|, |e.tiers.capacities| - s.b.tier
  {
    if HasHead(s.b) {
      var s1 := s.(b := Tick(s.b));
      var now := e.clock(s.b.ticks).value;
      if now >= Head(s.b).deadline {
        PoisonCalm(s1, ProducerTimeout, Head(s.b).seqNo, Some(s.b.pending[0]), false);
      } else if Room(e, s.b, Head(s.b).nbytes) {
        LoopCalm(e, s1.(b := AdmitHead(s1.b, s.b.ticks), wakeup := true));
      } else if CanGrow(e, s) {
        LoopCalm(e, s1.(b := Grow(s1.b)));
      }
    }
  }

  lemma PumpCalm(e: Env, s: Ledger)
    requires Healthy(e) && Balanced(e, s.b) && Control(s)
    ensures StaysCalm(s, Pump(e, s))
  {
    hide Balanced, Control, CheckPasses;
    if Open(s) {
      LoopCalm(e, s);
      LoopInv(e, s);
      var exit := PumpLoop(e, s);
      if !exit.poisoned {
        var s1 := exit.s.(pendingEmpty := exit.s.b.pending == []);
        DisarmControl(exit.s, s1);
        RearmInv(e, s1);
        CheckNeverTrips(e, Rearm(e, s1), Lowest(Rearm(e, s1).b));
      }
    }
  }

  lemma PrepareExpected(e: Env, s: Ledger, ev: Event)
    requires Balanced(e, s.b)
    ensures Prepare(e, ev, s.b.accepted + 1).Err? ==> Expected(Prepare(e, ev, s.b.accepted + 1).error)
  {
    MarkerFits(s.b.accepted + 1, ev.kind);
  }

  lemma CommitCalm(e: Env, s: Ledger, wire: string)
    requires Healthy(e) && Inv(e, s) && Accepting(s) && |wire| <= e.maxEventBytes
    requires s.b.accepted < e.maxEvents && |s.b.pending| < e.tiers.policy.maxEventCapacity
    requires s.b.pendingBytes + s.b.queuedBytes + |wire| <= e.tiers.policy.maxQueuedBytes
    ensures e.clock(s.b.ticks).Some? && StaysCalm(s, Pump(e, Committed(e, s, wire)))
    ensures CheckPasses(e, Committed(e, s, wire))
        && Verify(e, Committed(e, s, wire), s.b.accepted + 1) == Committed(e, s, wire)
  {
    hide Balanced, Control, Pump, CheckPasses, Quiet;
    CommitParts(e, s, wire);
    PumpCalm(e, Committed(e, s, wire));
  }

  lemma AcceptCalm(e: Env, s: Ledger, wire: string, phase: Phase)
    requires Healthy(e) && Inv(e, s) && Accepting(s) && |wire| <= e.maxEventBytes
    ensures StaysCalm(s, AcceptChecked(e, s, wire, phase).0)
  {
    hide Balanced, Control, Poison, Pump, CheckPasses, Quiet, Commit;
    var n := s.b.accepted + 1;
    if s.b.accepted >= e.maxEvents { PoisonCalm(s, MaxEvents, n, None, false); }
    else if |s.b.pending| >= e.tiers.policy.maxEventCapacity { PoisonCalm(s, SaturatedCount, n, None, false); }
    else if s.b.pendingBytes + s.b.queuedBytes + |wire| > e.tiers.policy.maxQueuedBytes {
      PoisonCalm(s, SaturatedBytes, n, None, false);
    } else {
      CommitCalm(e, s, wire);
      DeadlinesInOrder(e, s.b, e.clock(s.b.ticks).value);
    }
  }

  lemma SubmitCalm(e: Env, s: Ledger, ev: Event, phase: Phase)
    requires Healthy(e) && Inv(e, s)
    ensures StaysCalm(s, Submit(e, s, ev, phase).0)
  {
    hide Balanced, Control, Pump, AcceptChecked, Poison, Prepare;
    if Accepting(s) {
      PumpInv(e, s);
      PumpCalm(e, s);
      var s1 := Pump(e, s);
      if Accepting(s1) {
        PrepareExpected(e, s1, ev);
        PrepareBounds(e, s1, ev);
        match Prepare(e, ev, s1.b.accepted + 1)
        case Err(code) => PoisonCalm(s1, code, s1.b.accepted + 1, None, false);
        case Ok(wire) =>
          PumpInv(e, s1);
          PumpCalm(e, s1);
          var s2 := Pump(e, s1);
          if Accepting(s2) { AcceptCalm(e, s2, wire, phase); }
      }
    }
  }

  lemma PrepareBounds(e: Env, s: Ledger, ev: Event)
    ensures Prepare(e, ev, s.b.accepted + 1).Ok? ==> |Prepare(e, ev, s.b.accepted + 1).value| <= e.maxEventBytes
  {}

  lemma StaysCalmIsCalm(s: Ledger, s': Ledger)
    requires Calm(s) && Control(s) && StaysCalm(s, s')
    ensures Calm(s')
  {}

  lemma AckCalm(e: Env, s: Ledger)
    requires Healthy(e) && Inv(e, s) && Calm(s) && !LateReturn(s, DoAppendReturns)
    ensures Calm(AppendReturns(e, s))
  {
    hide Balanced, Control, Quiet, Pump, CheckPasses, Poison;
    if s.task.Appending? {
      AckGuard(e, s);
      if s.writing == Some(s.task.seqNo) && s.b.torn == |s.b.tickets[s.b.persisted].wire| {
        var s1 := Returned(s).(b := AckHead(s.b), inFlight := None);
        AckBalanced(e, s.b);
        AckControl(e, s);
        CheckNeverTrips(e, s1, s.task.seqNo);
        PumpCalm(e, s1);
        assert AppendReturns(e, s) == Pump(e, s1).(wakeup := true);
      }
    }
  }

  /** The guard then does fire. */
  lemma LateReturnRaises(e: Env, s: Ledger)
    requires Inv(e, s) && LateReturn(s, DoAppendReturns)
    ensures Key(s.task.seqNo, LedgerInvariant) in AppendReturns(e, s).b.raised
    ensures !AllExpected(AppendReturns(e, s).b.raised)
  {
    hide Balanced, Quiet, Pump, CheckPasses;
    var k := Key(s.task.seqNo, LedgerInvariant);
    assert AppendReturns(e, s).b.raised == s.b.raised + [k];
    assert k in AppendReturns(e, s).b.raised;
  }

  lemma FinishCalm(s: Ledger)
    requires Calm(s) && s.task.Appending? == false
    ensures Calm(CloseFinish(s))
  {
    hide Poison;
    PoisonCalm(DisarmTimer(s), CloseInconsistency, Lowest(s.b), None, true);
    PoisonEmpties(DisarmTimer(s), CloseInconsistency, Lowest(s.b));
  }

  lemma StartsCalm(e: Env, s: Ledger)
    requires Healthy(e) && Inv(e, s) && Calm(s) && !s.close.CloseDone?
    ensures Calm(CloseStarts(e, s))
  {
    hide Balanced, Poison, CloseFinish, Pump;
    if s.consumer == NotStarted || !s.consumerRef {
      PoisonCalm(s, NoConsumer, Lowest(s.b), None, true);
      PoisonEmpties(s, NoConsumer, Lowest(s.b));
      PoisonCalm(s, CloseInconsistency, Lowest(s.b), None, true);
      PoisonEmpties(s, CloseInconsistency, Lowest(s.b));
      KeepsClose(s, CloseInconsistency, Lowest(s.b));
      KeepsClose(s, NoConsumer, Lowest(s.b));
      FinishCalm(Poison(s, CloseInconsistency, Lowest(s.b), None, true));
    } else {
      DrainsCalm(e, s);
    }
  }

  lemma KeepsClose(s: Ledger, code: Code, ordinal: int)
    ensures Poison(s, code, ordinal, None, true).close == s.close
  {}

  lemma DrainsCalm(e: Env, s: Ledger)
    requires Healthy(e) && Inv(e, s) && Calm(s) && !s.close.CloseDone?
    ensures Calm(CloseDrains(e, s))
  {
    hide Balanced, Control, Pump;
    var s0 := s.(pendingEmpty := false);
    DisarmControl(s, s0);
    PumpCalm(e, s0);
    StaysCalmIsCalm(s0, Pump(e, s0));
  }

  lemma JoinsCalm(s: Ledger)
    requires Calm(s)
    ensures Calm(CloseJoins(s))
  {
    hide Poison, CloseFinish;
    if s.task.Done? {
      PoisonCalm(s, ConsumerCancelled, Lowest(s.b), None, true);
      PoisonEmpties(s, ConsumerCancelled, Lowest(s.b));
      KeepsClose(s, ConsumerCancelled, Lowest(s.b));
      if s.task.cancelled && s.consumer == ConsumerRunning {
        var p := Poison(s, ConsumerCancelled, Lowest(s.b), None, true);
        FinishCalm(p.(consumer := ExitedError).(consumerRef := false));
      } else {
        FinishCalm(s.(consumerRef := false));
      }
    }
  }

  lemma CloseRunsCalm(e: Env, s: Ledger)
    requires Healthy(e) && Inv(e, s) && Calm(s)
    ensures Calm(CloseRuns(e, s))
  {
    hide Inv, Calm, CloseStarts, CloseDrains, CloseJoins;
    if !s.close.CloseDone? {
      StartsCalm(e, s);
      DrainsCalm(e, s);
    }
    JoinsCalm(s);
  }

  lemma ConsumerCalm(s: Ledger)
    requires Control(s) && Calm(s)
    ensures Calm(ConsumerRuns(s)) && Calm(ConsumerDone(s)) && Calm(Start(s, false)) && Calm(Start(s, true))
  {
    hide Poison;
    PoisonCalm(s, CloseInconsistency, Lowest(s.b), None, true);
    PoisonCalm(s, ConsumerCancelled, Lowest(s.b), None, true);
    PoisonCalm(s.(consumer := ExitedError), ConsumerStart, Lowest(s.b), None, true);
    PoisonEmpties(s, CloseInconsistency, Lowest(s.b));
    PoisonEmpties(s, ConsumerCancelled, Lowest(s.b));
    PoisonEmpties(s.(consumer := ExitedError), ConsumerStart, Lowest(s.b));
    KeepsClose(s, CloseInconsistency, Lowest(s.b));
    KeepsClose(s, ConsumerCancelled, Lowest(s.b));
    KeepsClose(s.(consumer := ExitedError), ConsumerStart, Lowest(s.b));
  }

  lemma DyingCalm(s: Ledger)
    requires Control(s) && Calm(s)
    ensures Calm(AppendRaises(s)) && Calm(CancelConsumer(s))
  {
    hide Poison;
    PoisonCalm(s, ConsumerCancelled, Lowest(s.b), None, true);
    KeepsClose(s, ConsumerCancelled, Lowest(s.b));
    if s.task.Appending? {
      PoisonCalm(s.(writing := None), AppendFailed, s.task.seqNo, None, true);
      KeepsClose(s.(writing := None), AppendFailed, s.task.seqNo);
      PoisonCalm(s, ConsumerCancelled, s.task.seqNo, None, true);
      KeepsClose(s, ConsumerCancelled, s.task.seqNo);
    }
  }

  lemma EmitCalm(e: Env, s: Ledger, ev: Event)
    requires Healthy(e) && Inv(e, s) && Calm(s)
    ensures Calm(EmitAwaited(e, s, ev).0)
  {
    hide Balanced, Poison, Submit;
    if Live(s) {
      SubmitCalm(e, s, ev, PersistencePhase);
    } else {
      PoisonCalm(s, NoConsumer, s.b.accepted + 1, None, true);
      PoisonEmpties(s, NoConsumer, s.b.accepted + 1);
      KeepsClose(s, NoConsumer, s.b.accepted + 1);
    }
  }

  lemma CutoffCalm(e: Env, s: Ledger)
    requires Healthy(e) && Inv(e, s) && Calm(s)
    ensures Calm(Close(e, s))
  {
    hide Balanced, Control, Pump, StaysCalm;
    if s.close == NoClose && (s.state == New || s.state == Running) {
      var s1 := s.(state := Closing, close := CloseFresh);
      CutoffControl(e, s);
      PumpCalm(e, s1);
      StaysCalmIsCalm(s1, Pump(e, s1));
    }
  }

  lemma CloseEndsCalm(s: Ledger)
    requires Calm(s)
    ensures Calm(CancelClose(s)) && Calm(CacheClose(s))
  {
    hide Poison;
    PoisonCalm(s, CloseInconsistency, Lowest(s.b), None, true);
    KeepsClose(s, CloseInconsistency, Lowest(s.b));
  }

  lemma StepCalm(e: Env, s: Ledger, a: Action)
    requires Healthy(e) && Inv(e, s) && Calm(s) && !LateReturn(s, a)
    ensures Calm(Step(e, s, a))
  {
    hide Balanced, Control, Quiet, Pump, StaysCalm, Submit, EmitAwaited, Close, CloseRuns, AppendReturns, ConsumerRuns,
      ConsumerDone, Start, AppendRaises, CancelConsumer, CancelClose, CacheClose;
    match a
    case DoStart(created) => ConsumerCalm(s);
    case DoSubmit(ev) =>
      SubmitCalm(e, s, ev, AdmissionPhase);
      StaysCalmIsCalm(s, Submit(e, s, ev, AdmissionPhase).0);
    case DoEmitAwaited(ev) => EmitCalm(e, s, ev);
    case DoTimer(generation) =>
      DisarmControl(s, s.(timer := None));
      PumpCalm(e, s.(timer := None));
      StaysCalmIsCalm(s.(timer := None), Pump(e, s.(timer := None)));
    case DoConsumer => ConsumerCalm(s);
    case DoAppendReturns => AckCalm(e, s);
    case DoAppendRaises => DyingCalm(s);
    case DoCancelConsumer => DyingCalm(s);
    case DoConsumerDone => ConsumerCalm(s);
    case DoClose => CutoffCalm(e, s);
    case DoCloseRuns => CloseRunsCalm(e, s);
    case DoCancelClose => CloseEndsCalm(s);
    case DoCacheClose => CloseEndsCalm(s);
    case _ =>
  }

  /** Some step of the run is such a late return. */
  ghost predicate SomeLateReturn(e: Env, s: Ledger, actions: seq<Action>) {
    exists k :: 0 <= k < |actions| && LateReturn(Run(e, s, actions[..k]), actions[k])
  }

  lemma LateReturnLater(e: Env, s: Ledger, actions: seq<Action>)
    requires actions != []
    ensures SomeLateReturn(e, s, actions)
      <==> LateReturn(s, actions[0]) || SomeLateReturn(e, Step(e, s, actions[0]), actions[1..])
  {
    hide LateReturn, Step;
    var next, rest := Step(e, s, actions[0]), actions[1..];
    assert Run(e, s, actions[..0]) == s;
    forall k | 0 <= k < |rest|
      ensures Run(e, s, actions[..k + 1]) == Run(e, next, rest[..k]) && actions[k + 1] == rest[k]
    {
      assert actions[..k + 1][1..] == rest[..k];
    }
    if SomeLateReturn(e, s, actions) && !LateReturn(s, actions[0]) {
      var k :| 0 <= k < |actions| && LateReturn(Run(e, s, actions[..k]), actions[k]);
      assert LateReturn(Run(e, next, rest[..k - 1]), rest[k - 1]);
    }
    if SomeLateReturn(e, next, rest) {
      var k :| 0 <= k < |rest| && LateReturn(Run(e, next, rest[..k]), rest[k]);
      assert LateReturn(Run(e, s, actions[..k + 1]), actions[k + 1]);
    }
  }

  /** Over a whole run: an unexpected failure is raised exactly when some append returned late. */
  lemma {:induction false} RunCalmIff(e: Env, s: Ledger, actions: seq<Action>)
    requires Healthy(e) && Inv(e, s) && Calm(s)
    ensures AllExpected(Run(e, s, actions).b.raised) <==> !SomeLateReturn(e, s, actions)
    decreases |actions|
  {
    hide Inv, Calm, Step, LateReturn, SomeLateReturn;
    if actions == [] {
      NoActionNoReturn(e, s);
      CalmIsExpected(s);
    } else {
      LateReturnLater(e, s, actions);
      StepInv(e, s, actions[0]);
      var next := Step(e, s, actions[0]);
      if LateReturn(s, actions[0]) {
        LateStepRaises(e, s, actions[0]);
        NothingIsTakenBack(e, next, actions[1..]);
        StillRaised(next.b, Run(e, next, actions[1..]).b);
      } else {
        StepCalm(e, s, actions[0]);
        RunCalmIff(e, next, actions[1..]);
      }
    }
  }

  lemma NoActionNoReturn(e: Env, s: Ledger)
    ensures !SomeLateReturn(e, s, [])
  {}

  lemma CalmIsExpected(s: Ledger)
    requires Calm(s)
    ensures AllExpected(s.b.raised)
  {}

  lemma LateStepRaises(e: Env, s: Ledger, a: Action)
    requires Inv(e, s) && LateReturn(s, a)
    ensures !AllExpected(Step(e, s, a).b.raised)
  {
    hide AppendReturns, Inv;
    LateReturnRaises(e, s);
  }

  lemma StillRaised(b: Books, b': Books)
    requires Evolves(b, b') && !AllExpected(b.raised)
    ensures !AllExpected(b'.raised)
  {
    var k :| k in b.raised && !Expected(k.code);
    assert k in b'.raised;
  }
}
