/**
 What a run can never take back: lines in the file, acknowledgements, settled
 phases, raised failures, and the end of acceptance.
 */
module LedgerHistory {
  import opened Wrappers
  import opened Ledger
  import opened LedgerInvariant
  import opened LedgerSteps

  /** A settled phase keeps its first outcome; identity and line never change. */
  ghost predicate Sticks(t: Ticket, t': Ticket) {
    && t'.seqNo == t.seqNo && t'.wire == t.wire && t'.deadline == t.deadline
    && (t.admission.Some? ==> t'.admission == t.admission)
    && (t.persistence.Some? ==> t'.persistence == t.persistence)
  }

  ghost predicate AllStick(a: seq<Ticket>, b: seq<Ticket>) {
    |a| <= |b| && forall i :: 0 <= i < |a| ==> Sticks(a[i], b[i])
  }

  ghost predicate Evolves(b: Books, b': Books) {
    && AllStick(b.tickets, b'.tickets)
    && b.raised <= b'.raised && b.file <= b'.file
    && b.accepted <= b'.accepted && b.persisted <= b'.persisted && b.tier <= b'.tier
    && (HasFailed(b) ==> HasFailed(b') && b'.accepted == b.accepted)
  }

  lemma EvolvesTrans(a: Books, b: Books, c: Books)
    requires Evolves(a, b) && Evolves(b, c)
    ensures Evolves(a, c)
  {
    forall i | 0 <= i < |a.tickets| ensures Sticks(a.tickets[i], c.tickets[i]) {
      assert Sticks(a.tickets[i], b.tickets[i]);
    }
  }

  lemma EvolvesRefl(b: Books)
    ensures Evolves(b, b)
  {}

  lemma PoisonEvolves(s: Ledger, code: Code, ordinal: int, victim: Option<nat>, impossible: bool)
    ensures Evolves(s.b, Poison(s, code, ordinal, victim, impossible).b)
  {}

  lemma AdmitEvolves(b: Books, read: nat)
    requires HasHead(b)
    ensures Evolves(b, AdmitHead(b, read))
  {}

  lemma CommitEvolves(b: Books, wire: string, deadline: real, read: nat)
    requires !HasFailed(b)
    ensures Evolves(b, Commit(b, wire, deadline, read))
  {}

  lemma AckEvolves(b: Books)
    requires b.admitted != [] && 1 <= b.admitted[0] <= |b.tickets| && b.admitted[0] == b.persisted + 1
    ensures Evolves(b, AckHead(b))
  {}

  lemma WriteEvolves(b: Books, line: string, n: nat)
    requires b.torn <= |line|
    ensures Evolves(b, WriteBytes(b, line, n))
  {}

  lemma {:induction false} LoopEvolves(e: Env, s: Ledger)
    ensures Evolves(s.b, PumpLoop(e, s).s.b)
    decreases |s.b.pending|, |e.tiers.capacities| - s.b.tier
  {
    hide Evolves, Poison;
    EvolvesRefl(s.b);
    if HasHead(s.b) {
      var s1 := s.(b := Tick(s.b));
      TickEvolves(s.b);
      match e.clock(s.b.ticks)
      case None =>
        PoisonEvolves(s1, LedgerInvariant, Head(s.b).seqNo, None, !Live(s));
        EvolvesTrans(s.b, s1.b, PumpLoop(e, s).s.b);
      case Some(now) =>
        if now >= Head(s.b).deadline {
          PoisonEvolves(s1, ProducerTimeout, Head(s.b).seqNo, Some(s.b.pending[0]), false);
          EvolvesTrans(s.b, s1.b, PumpLoop(e, s).s.b);
        } else if Room(e, s.b, Head(s.b).nbytes) {
          var s2 := s1.(b := AdmitHead(s1.b, s.b.ticks), wakeup := true);
          AdmitEvolves(s1.b, s.b.ticks);
          LoopEvolves(e, s2);
          EvolvesTrans(s.b, s1.b, s2.b);
          EvolvesTrans(s.b, s2.b, PumpLoop(e, s2).s.b);
        } else if CanGrow(e, s) {
          var s2 := s1.(b := Grow(s1.b));
          GrowEvolves(s1.b);
          LoopEvolves(e, s2);
          EvolvesTrans(s.b, s1.b, s2.b);
          EvolvesTrans(s.b, s2.b, PumpLoop(e, s2).s.b);
        }
    }
  }

  lemma TickEvolves(b: Books)
    ensures Evolves(b, Tick(b))
  {}

  lemma GrowEvolves(b: Books)
    ensures Evolves(b, Grow(b))
  {}

  lemma RearmEvolves(e: Env, s: Ledger)
    ensures Evolves(s.b, Rearm(e, s).b)
  {
    hide Evolves, Poison;
    EvolvesRefl(s.b);
    if HasHead(s.b) && Open(s) && !e.arm(DisarmTimer(s).generation) {
      PoisonEvolves(DisarmTimer(s), LedgerInvariant, s.b.pending[0], None, !Live(s));
    }
  }

  lemma VerifyEvolves(e: Env, s: Ledger, ordinal: int)
    ensures Evolves(s.b, Verify(e, s, ordinal).b)
  {
    hide Evolves, Poison, CheckPasses;
    EvolvesRefl(s.b);
    if !CheckPasses(e, s) { PoisonEvolves(s, LedgerInvariant, ordinal, None, true); }
  }

  lemma PumpEvolves(e: Env, s: Ledger)
    ensures Evolves(s.b, Pump(e, s).b)
  {
    hide Evolves, Verify, Rearm;
    EvolvesRefl(s.b);
    if Open(s) {
      LoopEvolves(e, s);
      var exit := PumpLoop(e, s);
      var s1 := exit.s.(pendingEmpty := exit.s.b.pending == []);
      var s2 := Rearm(e, s1);
      RearmEvolves(e, s1);
      VerifyEvolves(e, s2, Lowest(s2.b));
      EvolvesTrans(s.b, s1.b, s2.b);
      EvolvesTrans(s.b, s2.b, Verify(e, s2, Lowest(s2.b)).b);
    }
  }

  lemma AcceptEvolves(e: Env, s: Ledger, wire: string, phase: Phase)
    requires Accepting(s)
    ensures Evolves(s.b, AcceptChecked(e, s, wire, phase).0.b)
  {
    hide Evolves, Verify, Pump, Poison, CheckPasses;
    var n := s.b.accepted + 1;
    var s1 := s.(b := Tick(s.b));
    TickEvolves(s.b);
    if s.b.accepted >= e.maxEvents { PoisonEvolves(s, MaxEvents, n, None, false); }
    else if |s.b.pending| >= e.tiers.policy.maxEventCapacity { PoisonEvolves(s, SaturatedCount, n, None, false); }
    else if s.b.pendingBytes + s.b.queuedBytes + |wire| > e.tiers.policy.maxQueuedBytes {
      PoisonEvolves(s, SaturatedBytes, n, None, false);
    } else if e.clock(s.b.ticks).Some? {
      var deadline := e.clock(s.b.ticks).value + e.tiers.policy.producerTimeout;
      if s.b.lastDeadline.Some? && deadline < s.b.lastDeadline.value {
        PoisonEvolves(s1, LedgerInvariant, n, None, false);
        EvolvesTrans(s.b, s1.b, Poison(s1, LedgerInvariant, n, None, false).b);
      } else {
        var s2 := s1.(b := Commit(s1.b, wire, deadline, s.b.ticks), pendingEmpty := false);
        var s3 := Verify(e, s2, n);
        CommitEvolves(s1.b, wire, deadline, s.b.ticks);
        VerifyEvolves(e, s2, n);
        PumpEvolves(e, s3);
        EvolvesTrans(s.b, s1.b, s2.b);
        EvolvesTrans(s.b, s2.b, s3.b);
        EvolvesTrans(s.b, s3.b, Pump(e, s3).b);
      }
    }
  }

  lemma SubmitEvolves(e: Env, s: Ledger, ev: Event, phase: Phase)
    ensures Evolves(s.b, Submit(e, s, ev, phase).0.b)
  {
    hide Evolves, Pump, Poison, AcceptChecked;
    EvolvesRefl(s.b);
    if Accepting(s) {
      var s1 := Pump(e, s);
      PumpEvolves(e, s);
      if Accepting(s1) {
        match Prepare(e, ev, s1.b.accepted + 1)
        case Err(code) =>
          PoisonEvolves(s1, code, s1.b.accepted + 1, None, false);
          EvolvesTrans(s.b, s1.b, Poison(s1, code, s1.b.accepted + 1, None, false).b);
        case Ok(wire) =>
          var s2 := Pump(e, s1);
          PumpEvolves(e, s1);
          EvolvesTrans(s.b, s1.b, s2.b);
          if Accepting(s2) {
            AcceptEvolves(e, s2, wire, phase);
            EvolvesTrans(s.b, s2.b, AcceptChecked(e, s2, wire, phase).0.b);
          }
      }
    }
  }

  lemma DurableAckEvolves(e: Env, s: Ledger, n: nat)
    ensures Evolves(s.b, DurableAck(e, s, n).b)
  {
    hide Evolves, Pump, Poison, CheckPasses, Verify;
    if s.b.admitted == [] || s.b.admitted[0] != n || s.inFlight != Some(n)
       || !(1 <= n <= |s.b.tickets|) || s.b.tickets[n - 1].state != Admitted || n != s.b.persisted + 1
    {
      PoisonEvolves(s, LedgerInvariant, n, None, true);
    } else {
      var s1 := s.(b := AckHead(s.b), inFlight := None);
      AckEvolves(s.b);
      VerifyEvolves(e, s1, n);
      PumpEvolves(e, s1);
      EvolvesTrans(s.b, s1.b, Verify(e, s1, n).b);
      EvolvesTrans(s.b, s1.b, Pump(e, s1).b);
    }
  }

  lemma CloseRunsEvolves(e: Env, s: Ledger)
    ensures Evolves(s.b, CloseRuns(e, s).b)
  {
    hide Evolves, CloseStarts, CloseJoins, CloseDrains;
    EvolvesRefl(s.b);
    StartsEvolves(e, s);
    DrainsEvolves(e, s);
    JoinEvolves(s);
  }

  lemma StartsEvolves(e: Env, s: Ledger)
    ensures Evolves(s.b, CloseStarts(e, s).b)
  {
    hide Evolves, Poison, CloseFinish, CloseDrains;
    EvolvesRefl(s.b);
    DrainsEvolves(e, s);
    var p := Poison(s, CloseInconsistency, Lowest(s.b), None, true);
    PoisonEvolves(s, CloseInconsistency, Lowest(s.b), None, true);
    PoisonEvolves(s, NoConsumer, Lowest(s.b), None, true);
    FinishEvolves(p);
    EvolvesTrans(s.b, p.b, CloseFinish(p).b);
  }

  lemma DrainsEvolves(e: Env, s: Ledger)
    ensures Evolves(s.b, CloseDrains(e, s).b)
  {
    hide Evolves, Pump;
    EvolvesRefl(s.b);
    PumpEvolves(e, s.(pendingEmpty := false));
  }

  lemma JoinEvolves(s: Ledger)
    ensures Evolves(s.b, CloseJoins(s).b)
  {
    hide Evolves, Poison, CloseFinish;
    if !s.task.Done? {
      EvolvesRefl(s.b);
    } else if s.task.cancelled && s.consumer == ConsumerRunning {
      var p := Poison(s, ConsumerCancelled, Lowest(s.b), None, true).(consumer := ExitedError).(consumerRef := false);
      PoisonEvolves(s, ConsumerCancelled, Lowest(s.b), None, true);
      FinishEvolves(p);
      EvolvesTrans(s.b, p.b, CloseFinish(p).b);
    } else {
      FinishEvolves(s.(consumerRef := false));
    }
  }

  lemma CloseEvolves(e: Env, s: Ledger)
    ensures Evolves(s.b, Close(e, s).b) && Evolves(s.b, CacheClose(s).b)
  {
    hide Evolves, Pump, Poison;
    EvolvesRefl(s.b);
    PumpEvolves(e, s.(state := Closing, close := CloseFresh));
    PoisonEvolves(s, CloseInconsistency, Lowest(s.b), None, true);
  }

  lemma FinishEvolves(s: Ledger)
    ensures Evolves(s.b, CloseFinish(s).b)
  {
    hide Evolves, Poison;
    EvolvesRefl(s.b);
    PoisonEvolves(DisarmTimer(s), CloseInconsistency, Lowest(s.b), None, true);
  }

  lemma SinkEvolves(s: Ledger, n: nat)
    ensures Evolves(s.b, SinkWrites(s, n).b)
  {
    hide Evolves;
    EvolvesRefl(s.b);
    if s.writing.Some? && 1 <= s.writing.value <= |s.b.tickets| && s.b.torn <= |s.b.tickets[s.writing.value - 1].wire| {
      WriteEvolves(s.b, s.b.tickets[s.writing.value - 1].wire, n);
    }
  }

  lemma ConsumerRunsEvolves(s: Ledger)
    ensures Evolves(s.b, ConsumerRuns(s).b) && Evolves(s.b, ConsumerDone(s).b) && Evolves(s.b, Start(s, false).b)
  {
    hide Evolves, Poison;
    EvolvesRefl(s.b);
    PoisonEvolves(s, CloseInconsistency, Lowest(s.b), None, true);
    PoisonEvolves(s, ConsumerCancelled, Lowest(s.b), None, true);
    PoisonEvolves(s, UnexpectedConsumerExit, Lowest(s.b), None, true);
    PoisonEvolves(s.(consumer := ExitedError), ConsumerStart, Lowest(s.b), None, true);
  }

  lemma ConsumerDiesEvolves(s: Ledger)
    ensures Evolves(s.b, AppendRaises(s).b) && Evolves(s.b, CancelConsumer(s).b)
  {
    hide Evolves, Poison;
    EvolvesRefl(s.b);
    PoisonEvolves(s, ConsumerCancelled, Lowest(s.b), None, true);
    if s.task.Appending? {
      PoisonEvolves(s.(writing := None), AppendFailed, s.task.seqNo, None, true);
      PoisonEvolves(s, ConsumerCancelled, s.task.seqNo, None, true);
    }
  }

  lemma StepEvolves(e: Env, s: Ledger, a: Action)
    ensures Evolves(s.b, Step(e, s, a).b)
  {
    hide Evolves, Poison, Pump, Submit, DurableAck, CloseRuns, CacheClose, ConsumerRuns, SinkWrites, CancelConsumer,
        ConsumerDone;
    EvolvesRefl(s.b);
    match a
    case DoSubmit(ev) => SubmitEvolves(e, s, ev, AdmissionPhase);
    case DoEmitAwaited(ev) =>
      SubmitEvolves(e, s, ev, PersistencePhase);
      PoisonEvolves(s, NoConsumer, s.b.accepted + 1, None, true);
    case DoTimer(generation) => PumpEvolves(e, s.(timer := None));
    case DoAppendReturns => if s.task.Appending? { DurableAckEvolves(e, Returned(s), s.task.seqNo); }
    case DoSinkWrites(n) => SinkEvolves(s, n);
    case DoStart(created) => ConsumerRunsEvolves(s);
    case DoConsumer => ConsumerRunsEvolves(s);
    case DoConsumerDone => ConsumerRunsEvolves(s);
    case DoAppendRaises => ConsumerDiesEvolves(s);
    case DoCancelConsumer => ConsumerDiesEvolves(s);
    case DoClose => CloseEvolves(e, s);
    case DoCloseRuns => CloseRunsEvolves(e, s);
    case DoCacheClose => CloseEvolves(e, s);
    case _ =>
  }

  /**
   Over every run: the file only grows, acknowledgements and raised failures
   only accumulate, a settled phase keeps its outcome, and after a failure
   nothing more is accepted.
   */
  lemma {:induction false} NothingIsTakenBack(e: Env, s: Ledger, actions: seq<Action>)
    ensures Evolves(s.b, Run(e, s, actions).b)
    decreases |actions|
  {
    hide Evolves, Step;
    if actions == [] {
      EvolvesRefl(s.b);
    } else {
      var s1 := Step(e, s, actions[0]);
      StepEvolves(e, s, actions[0]);
      NothingIsTakenBack(e, s1, actions[1..]);
      EvolvesTrans(s.b, s1.b, Run(e, s, actions).b);
    }
  }
}
