/** Every step of the ledger keeps the invariant. */
module LedgerSteps {
  import opened Wrappers
  import opened Ledger
  import opened LedgerInvariant
  import opened LedgerFacts

  /** What neither the pump nor the funnel touches. */
  ghost predicate Frame(s: Ledger, s': Ledger) {
    && s'.b.accepted == s.b.accepted && s'.b.persisted == s.b.persisted && s'.b.lastDeadline == s.b.lastDeadline
    && s'.b.file == s.b.file && s'.b.torn == s.b.torn
    && s'.consumer == s.consumer && s'.consumerRef == s.consumerRef && s'.task == s.task && s'.doneSeen == s.doneSeen
    && s'.close == s.close && s'.cached == s.cached && s'.writing == s.writing
    && (HasFailed(s.b) ==> HasFailed(s'.b))
    && (HasFailed(s'.b) || (s'.state == s.state && s'.stop == s.stop))
  }

  lemma FrameRefl(s: Ledger)
    ensures Frame(s, s)
  {}

  lemma FrameTrans(s: Ledger, s1: Ledger, s2: Ledger)
    requires Frame(s, s1) && Frame(s1, s2)
    ensures Frame(s, s2)
  {}

  lemma PoisonControl(s: Ledger, code: Code, ordinal: int, victim: Option<nat>, impossible: bool)
    requires Control(s)
    ensures Control(Poison(s, code, ordinal, victim, impossible))
  {}

  lemma PoisonInv(e: Env, s: Ledger, code: Code, ordinal: int, victim: Option<nat>, impossible: bool)
    requires Balanced(e, s.b) && Control(s)
    ensures Inv(e, Poison(s, code, ordinal, victim, impossible))
    ensures Frame(s, Poison(s, code, ordinal, victim, impossible))
    ensures HasFailed(Poison(s, code, ordinal, victim, impossible).b)
  {
    var key := Key(if ordinal < 1 then 1 else ordinal, code);
    PoisonBalanced(e, s.b, key, victim, impossible || s.consumer != ConsumerRunning);
    PoisonControl(s, code, ordinal, victim, impossible);
  }

  // ---- the pump ----------------------------------------------------------

  /** How the loop may end: poisoned, or with an empty queue, or with a head for which there is no room. */
  ghost predicate LoopEnds(e: Env, s: Ledger, exit: LoopExit) {
    && Balanced(e, exit.s.b) && Control(exit.s) && Frame(s, exit.s)
    && (if exit.poisoned then HasFailed(exit.s.b) && Quiet(e, exit.s)
        else Open(exit.s) && (HasHead(exit.s.b) ==> !Room(e, exit.s.b, Head(exit.s.b).nbytes)))
  }

  lemma AdmitControl(e: Env, s: Ledger, read: nat)
    requires Balanced(e, s.b) && Control(s) && Open(s) && HasHead(s.b)
    ensures var s' := s.(b := AdmitHead(s.b, read), wakeup := true); Control(s') && Frame(s, s')
  {
    HeadIsNext(s.b);
  }

  lemma BooksControl(s: Ledger, b: Books)
    requires Control(s)
    requires b.persisted == s.b.persisted && b.admittedHigh == s.b.admittedHigh && b.accepted == s.b.accepted
    requires b.pending == s.b.pending && b.admitted == s.b.admitted && b.primary == s.b.primary && b.torn == s.b.torn
    requires b.lastDeadline == s.b.lastDeadline && b.file == s.b.file
    ensures Control(s.(b := b)) && Frame(s, s.(b := b))
  {}

  lemma HeadFacts(e: Env, b: Books)
    requires Balanced(e, b) && b.pending != []
    ensures HasHead(b) && !HasFailed(b)
  {
    HeadIsNext(b);
  }

  lemma LoopPoison(e: Env, s: Ledger, s1: Ledger, code: Code, ordinal: int, victim: Option<nat>, impossible: bool)
    requires Balanced(e, s1.b) && Control(s1) && Frame(s, s1)
    ensures LoopEnds(e, s, LoopExit(Poison(s1, code, ordinal, victim, impossible), true))
  {
    hide Balanced, Control, Poison, Frame;
    PoisonInv(e, s1, code, ordinal, victim, impossible);
    FrameTrans(s, s1, Poison(s1, code, ordinal, victim, impossible));
  }

  lemma {:induction false} LoopInv(e: Env, s: Ledger)
    requires Balanced(e, s.b) && Control(s) && Open(s)
    ensures LoopEnds(e, s, PumpLoop(e, s))
    decreases |s.b.pending|, |e.tiers.capacities| - s.b.tier
  {
    hide Balanced, Control, Poison, Live, Frame;
    FrameRefl(s);
    if s.b.pending != [] {
      HeadFacts(e, s.b);
      var head := Head(s.b);
      var s1 := s.(b := Tick(s.b));
      TickBalanced(e, s.b);
      BooksControl(s, s1.b);
      match e.clock(s.b.ticks)
      case None => LoopPoison(e, s, s1, LedgerInvariant, head.seqNo, None, !Live(s));
      case Some(now) =>
        if now >= head.deadline {
          LoopPoison(e, s, s1, ProducerTimeout, head.seqNo, Some(s.b.pending[0]), false);
        } else if Room(e, s.b, head.nbytes) {
          var s2 := s1.(b := AdmitHead(s1.b, s.b.ticks), wakeup := true);
          AdmitBalanced(e, s1.b, s.b.ticks);
          AdmitControl(e, s1, s.b.ticks);
          LoopInv(e, s2);
          FrameTrans(s, s1, s2);
          FrameTrans(s, s2, PumpLoop(e, s2).s);
        } else if CanGrow(e, s) {
          var s2 := s1.(b := Grow(s1.b));
          GrowBalanced(e, s1.b);
          BooksControl(s1, s2.b);
          LoopInv(e, s2);
          FrameTrans(s, s1, s2);
          FrameTrans(s, s2, PumpLoop(e, s2).s);
        }
    }
  }

  /** The runtime self-check never trips on balanced books. */
  lemma CheckNeverTrips(e: Env, s: Ledger, ordinal: int)
    requires Balanced(e, s.b) && Control(s)
    ensures CheckPasses(e, s) && Verify(e, s, ordinal) == s
  {
    if s.b.admitted != [] { AckIsNext(s.b); }
  }

  lemma RearmInv(e: Env, s: Ledger)
    requires Balanced(e, s.b) && Control(s) && Open(s) && s.pendingEmpty == (s.b.pending == [])
    requires HasHead(s.b) ==> !Room(e, s.b, Head(s.b).nbytes)
    ensures Inv(e, Rearm(e, s)) && Frame(s, Rearm(e, s))
  {
    hide Balanced, Control, Poison, Live, Frame;
    var s1 := DisarmTimer(s);
    DisarmControl(s, s1);
    if s.b.pending != [] {
      HeadFacts(e, s.b);
      if e.arm(s1.generation) { DisarmControl(s, Rearm(e, s)); }
      else {
        PoisonInv(e, s1, LedgerInvariant, s.b.pending[0], None, !Live(s));
        FrameTrans(s, s1, Rearm(e, s));
      }
    }
  }

  lemma DisarmControl(s: Ledger, s': Ledger)
    requires Control(s)
    requires s' == s.(timer := s'.timer, generation := s'.generation, pendingEmpty := s'.pendingEmpty)
    ensures Control(s') && Frame(s, s')
  {}

  lemma PumpInv(e: Env, s: Ledger)
    requires Balanced(e, s.b) && Control(s)
    requires !Open(s) ==> Quiet(e, s)
    ensures Inv(e, Pump(e, s)) && Frame(s, Pump(e, s))
  {
    hide Balanced, Control, Rearm, CheckPasses, Frame;
    if Open(s) {
      LoopInv(e, s);
      var exit := PumpLoop(e, s);
      if !exit.poisoned {
        var s1 := exit.s.(pendingEmpty := exit.s.b.pending == []);
        DisarmControl(exit.s, s1);
        FrameTrans(s, exit.s, s1);
        RearmInv(e, s1);
        CheckNeverTrips(e, Rearm(e, s1), Lowest(Rearm(e, s1).b));
        FrameTrans(s, s1, Rearm(e, s1));
      }
    } else {
      DisarmControl(s, Pump(e, s));
    }
  }

  // ---- acceptance ----------------------------------------------------------

  /** With a monotone clock the explicit deadline-order check never refuses. */
  lemma DeadlinesInOrder(e: Env, b: Books, now: real)
    requires Balanced(e, b) && e.clock(b.ticks) == Some(now)
    ensures b.lastDeadline.Some? ==> b.lastDeadline.value <= now + e.tiers.policy.producerTimeout
    ensures forall i :: 0 <= i < |b.tickets| ==> b.tickets[i].acceptRead < b.ticks
  {
    forall i: nat | i < |b.tickets| ensures b.tickets[i].acceptRead < b.ticks { assert TimeOk(e, b, i); }
    if b.tickets != [] { assert TimeOk(e, b, |b.tickets| - 1); }
  }

  lemma CommitControl(s: Ledger, wire: string, deadline: real, read: nat)
    requires Control(s) && Accepting(s)
    ensures Control(s.(b := Commit(s.b, wire, deadline, read), pendingEmpty := false))
  {}

  /** What a submission may do: it fails for good, or leaves the writer as open as it was. */
  ghost predicate Submitted(s: Ledger, s': Ledger) {
    && s'.b.persisted == s.b.persisted && s'.b.file == s.b.file && s'.b.torn == s.b.torn
    && s'.close == s.close && s'.cached == s.cached
    && (HasFailed(s.b) ==> HasFailed(s'.b))
    && (HasFailed(s.b) || s.close != NoClose ==> s'.b.accepted == s.b.accepted)
    && (s'.b.accepted == s.b.accepted || s'.b.accepted == s.b.accepted + 1)
  }

  lemma FrameSubmits(s: Ledger, s': Ledger)
    requires Frame(s, s')
    ensures Submitted(s, s')
  {}

  lemma FailInv(e: Env, s: Ledger, code: Code, ordinal: int)
    requires Inv(e, s)
    ensures Inv(e, Fail(s, code, ordinal).0) && Frame(s, Fail(s, code, ordinal).0)
    ensures Submitted(s, Fail(s, code, ordinal).0)
  {
    hide Balanced, Control, Poison, Frame;
    PoisonInv(e, s, code, ordinal, None, false);
    FrameSubmits(s, Poison(s, code, ordinal, None, false));
  }

  lemma AcceptInv(e: Env, s: Ledger, wire: string, phase: Phase)
    requires Inv(e, s) && Accepting(s) && |wire| <= e.maxEventBytes
    ensures Inv(e, AcceptChecked(e, s, wire, phase).0) && Submitted(s, AcceptChecked(e, s, wire, phase).0)
  {
    hide Balanced, Control, Poison, Pump, CheckPasses, Commit, Frame, Submitted, Quiet;
    OpenMeansUnclosed(s);
    var n := s.b.accepted + 1;
    if s.b.accepted >= e.maxEvents {
      FailInv(e, s, MaxEvents, n);
    } else if |s.b.pending| >= e.tiers.policy.maxEventCapacity {
      FailInv(e, s, SaturatedCount, n);
    } else if s.b.pendingBytes + s.b.queuedBytes + |wire| > e.tiers.policy.maxQueuedBytes {
      FailInv(e, s, SaturatedBytes, n);
    } else if e.clock(s.b.ticks).None? {
      TickInv(e, s);
      FrameSubmits(s, s.(b := Tick(s.b)));
    } else {
      DeadlinesInOrder(e, s.b, e.clock(s.b.ticks).value);
      CommitInv(e, s, wire);
    }
  }

  lemma OpenMeansUnclosed(s: Ledger)
    requires Control(s) && Accepting(s)
    ensures s.close == NoClose
  {}

  lemma TickInv(e: Env, s: Ledger)
    requires Inv(e, s)
    ensures Inv(e, s.(b := Tick(s.b))) && Frame(s, s.(b := Tick(s.b)))
  {
    hide Balanced, Control;
    TickBalanced(e, s.b);
    BooksControl(s, Tick(s.b));
  }

  function Committed(e: Env, s: Ledger, wire: string): Ledger
    requires e.clock(s.b.ticks).Some?
  {
    var deadline := e.clock(s.b.ticks).value + e.tiers.policy.producerTimeout;
    s.(b := Commit(Tick(s.b), wire, deadline, s.b.ticks), pendingEmpty := false)
  }

  lemma CommitParts(e: Env, s: Ledger, wire: string)
    requires Inv(e, s) && Accepting(s) && |wire| <= e.maxEventBytes
    requires s.b.accepted < e.maxEvents && |s.b.pending| < e.tiers.policy.maxEventCapacity
    requires s.b.pendingBytes + s.b.queuedBytes + |wire| <= e.tiers.policy.maxQueuedBytes
    requires e.clock(s.b.ticks).Some?
    ensures var s2 := Committed(e, s, wire);
      Balanced(e, s2.b) && Control(s2) && CheckPasses(e, s2) && Verify(e, s2, s.b.accepted + 1) == s2 && Open(s2)
  {
    hide Balanced, Control, CheckPasses;
    var deadline := e.clock(s.b.ticks).value + e.tiers.policy.producerTimeout;
    TickInv(e, s);
    DeadlinesInOrder(e, s.b, e.clock(s.b.ticks).value);
    CommitBalanced(e, Tick(s.b), wire, deadline, s.b.ticks);
    CommitControl(s.(b := Tick(s.b)), wire, deadline, s.b.ticks);
    CheckNeverTrips(e, Committed(e, s, wire), s.b.accepted + 1);
  }

  lemma CommitInv(e: Env, s: Ledger, wire: string)
    requires Inv(e, s) && Accepting(s) && |wire| <= e.maxEventBytes
    requires s.b.accepted < e.maxEvents && |s.b.pending| < e.tiers.policy.maxEventCapacity
    requires s.b.pendingBytes + s.b.queuedBytes + |wire| <= e.tiers.policy.maxQueuedBytes
    requires e.clock(s.b.ticks).Some?
    ensures var s2 := Committed(e, s, wire);
      && s2.b.accepted == s.b.accepted + 1
      && Verify(e, s2, s2.b.accepted) == s2 && CheckPasses(e, s2)
      && Inv(e, Pump(e, s2)) && Submitted(s, Pump(e, s2))
  {
    hide Balanced, Control, Pump, CheckPasses;
    OpenMeansUnclosed(s);
    var now := e.clock(s.b.ticks).value;
    var deadline := now + e.tiers.policy.producerTimeout;
    var s2 := Committed(e, s, wire);
    TickInv(e, s);
    DeadlinesInOrder(e, s.b, now);
    CommitBalanced(e, Tick(s.b), wire, deadline, s.b.ticks);
    CommitControl(s.(b := Tick(s.b)), wire, deadline, s.b.ticks);
    CheckNeverTrips(e, s2, s2.b.accepted);
    PumpInv(e, s2);
  }

  lemma SubmitInv(e: Env, s: Ledger, ev: Event, phase: Phase)
    requires Inv(e, s)
    ensures Inv(e, Submit(e, s, ev, phase).0) && Submitted(s, Submit(e, s, ev, phase).0)
  {
    hide Balanced, Control, Pump, AcceptChecked, Poison;
    if Accepting(s) {
      PumpInv(e, s);
      var s1 := Pump(e, s);
      if Accepting(s1) {
        match Prepare(e, ev, s1.b.accepted + 1)
        case Err(code) => FailInv(e, s1, code, s1.b.accepted + 1);
        case Ok(wire) =>
          PumpInv(e, s1);
          var s2 := Pump(e, s1);
          if Accepting(s2) { AcceptInv(e, s2, wire, phase); }
      }
    }
  }

  lemma EmitAwaitedInv(e: Env, s: Ledger, ev: Event)
    requires Inv(e, s)
    ensures Inv(e, EmitAwaited(e, s, ev).0) && Submitted(s, EmitAwaited(e, s, ev).0)
  {
    hide Balanced, Control, Poison, Submit;
    if Live(s) { SubmitInv(e, s, ev, PersistencePhase); }
    else { PoisonInv(e, s, NoConsumer, s.b.accepted + 1, None, true); }
  }

  // ---- the consumer --------------------------------------------------------

  function Returned(s: Ledger): Ledger { s.(writing := None, task := Ready) }

  /**
   The acknowledgement guard refuses only when the admitted queue was emptied
   under the append, that is, when the close task was cancelled meanwhile.
   */
  lemma AckGuard(e: Env, s: Ledger)
    requires Inv(e, s) && s.task.Appending?
    ensures s.task.seqNo == s.b.persisted + 1 <= s.b.admittedHigh <= |s.b.tickets|
    ensures s.b.torn == |s.b.tickets[s.b.persisted].wire| && s.b.admitted != [] ==>
      && MayAck(s.b)
      && s.b.admitted[0] == s.task.seqNo && s.inFlight == Some(s.task.seqNo)
      && s.b.tickets[s.task.seqNo - 1].state == Admitted
    ensures s.b.admitted == [] ==> HasFailed(s.b) && Control(Returned(s))
  {
    if s.b.admitted != [] {
      AckIsNext(s.b);
      assert PhaseOk(s.b, s.b.persisted);
    }
  }

  lemma AckControl(e: Env, s: Ledger)
    requires Balanced(e, s.b) && Control(s) && s.task.Appending? && s.b.admitted != []
        && 1 <= s.b.admitted[0] <= |s.b.tickets|
    ensures Control(Returned(s).(b := AckHead(s.b), inFlight := None))
  {
    AckIsNext(s.b);
  }

  lemma WakeInv(e: Env, s: Ledger)
    requires Inv(e, s)
    ensures Inv(e, s.(wakeup := true))
  {
    hide Balanced;
  }

  /** One acknowledgement moves exactly one ticket, or reports that nothing is left to move. */
  ghost predicate Acked(s: Ledger, s': Ledger) {
    && s'.b.accepted == s.b.accepted && s'.close == s.close && s'.cached == s.cached
    && (HasFailed(s.b) ==> HasFailed(s'.b))
    && s'.consumer == s.consumer && s'.task == Ready
    && (s.b.admitted != [] ==> s'.b.persisted == s.b.persisted + 1)
    && (s.b.admitted == [] ==> s'.b.persisted == s.b.persisted)
  }

  lemma AckQuiet(e: Env, s: Ledger)
    requires Inv(e, s) && s.b.admitted != [] && 1 <= s.b.admitted[0] <= |s.b.tickets|
    ensures var s1 := Returned(s).(b := AckHead(s.b), inFlight := None);
      && (!Open(s1) ==> Quiet(e, s1))
      && s1.b.accepted == s.b.accepted && s1.b.persisted == s.b.persisted + 1
      && HasFailed(s1.b) == HasFailed(s.b)
  {
    AckIsNext(s.b);
  }

  lemma AckPumps(e: Env, s: Ledger)
    requires Inv(e, s) && s.task.Appending? && MayAck(s.b) && 1 <= s.b.admitted[0] <= |s.b.tickets|
    ensures var s1 := Returned(s).(b := AckHead(s.b), inFlight := None);
      CheckPasses(e, s1) && Inv(e, Pump(e, s1).(wakeup := true)) && Acked(s, Pump(e, s1).(wakeup := true))
  {
    hide Balanced, Control, Pump, Poison, CheckPasses, AckHead;
    var s1 := Returned(s).(b := AckHead(s.b), inFlight := None);
    AckBalanced(e, s.b);
    AckControl(e, s);
    CheckNeverTrips(e, s1, 0);
    AckQuiet(e, s);
    PumpInv(e, s1);
    WakeInv(e, Pump(e, s1));
  }

  lemma AckInv(e: Env, s: Ledger)
    requires Inv(e, s) && s.task.Appending? && s.b.persisted < |s.b.tickets|
    requires s.b.torn == |s.b.tickets[s.b.persisted].wire|
    ensures Inv(e, DurableAck(e, Returned(s), s.task.seqNo)) && Acked(s, DurableAck(e, Returned(s), s.task.seqNo))
  {
    hide Balanced, Control, Pump, Poison, CheckPasses, AckHead;
    AckGuard(e, s);
    if s.b.admitted == [] {
      PoisonInv(e, Returned(s), LedgerInvariant, s.task.seqNo, None, true);
    } else {
      AckPumps(e, s);
    }
  }

  lemma AppendReturnsInv(e: Env, s: Ledger)
    requires Inv(e, s)
    ensures Inv(e, AppendReturns(e, s))
  {
    hide Balanced, Control, Quiet, DurableAck;
    if s.task.Appending? {
      AckGuard(e, s);
      if s.writing == Some(s.task.seqNo) && s.b.torn == |s.b.tickets[s.b.persisted].wire| {
        AckInv(e, s);
        assert AppendReturns(e, s) == DurableAck(e, Returned(s), s.task.seqNo);
      }
    }
  }

  lemma SinkWritesInv(e: Env, s: Ledger, n: nat)
    requires Inv(e, s)
    ensures Inv(e, SinkWrites(s, n))
  {
    if s.writing.Some? && SinkWrites(s, n) != s {
      assert s.writing.value == s.b.persisted + 1 <= s.b.admittedHigh;
      WriteBalanced(e, s.b, n);
      WriteControl(e, s, n);
    }
  }

  lemma WriteControl(e: Env, s: Ledger, n: nat)
    requires Control(s) && Quiet(e, s) && s.writing.Some?
    requires s.b.persisted < |s.b.tickets| && s.b.torn <= |s.b.tickets[s.b.persisted].wire|
    ensures var s' := s.(b := WriteBytes(s.b, s.b.tickets[s.b.persisted].wire, n)); Control(s') && Quiet(e, s')
  {}

  lemma ExitControl(s: Ledger, how: ConsumerState, cancelled: bool)
    requires Control(s) && (s.task == Fresh || s.task == Ready || s.task == Idle || s.task.Appending?)
    requires HasFailed(s.b) && s.b.admitted == [] && (how == ExitedError || how == ExitedFailureDrain)
    ensures Control(ConsumerExits(s, how, cancelled))
  {}

  lemma ExitInv(e: Env, s: Ledger, how: ConsumerState, cancelled: bool)
    requires Inv(e, s) && (s.task == Fresh || s.task == Ready || s.task == Idle || s.task.Appending?)
    requires HasFailed(s.b) && s.b.admitted == [] && (how == ExitedError || how == ExitedFailureDrain)
    ensures Inv(e, ConsumerExits(s, how, cancelled))
  {
    hide Balanced, Control;
    ExitControl(s, how, cancelled);
  }

  lemma PoisonEmpties(s: Ledger, code: Code, ordinal: int)
    ensures var s' := Poison(s, code, ordinal, None, true);
      && s'.b.admitted == [] && s'.b.pending == [] && s'.task == s.task && s'.inFlight.None? && HasFailed(s'.b)
      && s'.wakeup && s'.pendingEmpty && s'.writing == s.writing && s'.consumer == s.consumer
  {}

  /** Poison and exit with an error, in one go. */
  lemma DieInv(e: Env, s: Ledger, code: Code, ordinal: int, cancelled: bool)
    requires Inv(e, s) && (s.task == Fresh || s.task == Ready || s.task == Idle || s.task.Appending?)
    ensures Inv(e, ConsumerExits(Poison(s, code, ordinal, None, true), ExitedError, cancelled))
  {
    hide Balanced, Control, Poison, ConsumerExits, Frame;
    PoisonInv(e, s, code, ordinal, None, true);
    PoisonEmpties(s, code, ordinal);
    ExitInv(e, Poison(s, code, ordinal, None, true), ExitedError, cancelled);
  }

  /** Dying and forgetting the append thread commute. */
  lemma DeathForgets(s: Ledger, code: Code, ordinal: int)
    ensures ConsumerExits(Poison(s.(writing := None), code, ordinal, None, true), ExitedError, false)
      == ConsumerExits(Poison(s, code, ordinal, None, true), ExitedError, false).(writing := None)
  {
  }

  lemma AppendRaisesInv(e: Env, s: Ledger)
    requires Inv(e, s)
    ensures Inv(e, AppendRaises(s))
  {
    hide Balanced, Poison, ConsumerExits;
    if s.task.Appending? {
      DieInv(e, s, AppendFailed, s.task.seqNo, false);
      DeathForgets(s, AppendFailed, s.task.seqNo);
      DeadTask(s, AppendFailed, s.task.seqNo);
    }
  }

  lemma DeadTask(s: Ledger, code: Code, ordinal: int)
    ensures ConsumerExits(Poison(s, code, ordinal, None, true), ExitedError, false).task.Done?
  {
  }

  lemma OrphanEndsInv(e: Env, s: Ledger)
    requires Inv(e, s)
    ensures Inv(e, OrphanEnds(s))
  {
    hide Balanced;
  }

  lemma CancelConsumerInv(e: Env, s: Ledger)
    requires Inv(e, s)
    ensures Inv(e, CancelConsumer(s))
  {
    hide Balanced, Poison;
    match s.task
    case Appending(n) => DieInv(e, s, ConsumerCancelled, n, true);
    case Idle => DieInv(e, s, ConsumerCancelled, Lowest(s.b), true);
    case _ =>
  }

  lemma ConsumerRunsInv(e: Env, s: Ledger)
    requires Inv(e, s)
    ensures Inv(e, ConsumerRuns(s))
  {
    hide Balanced;
    NoAdmittedMeansDrained(e, s);
  }

  /** The head of the admitted queue is next; if the queue is empty and nothing failed, all admitted is persisted. */
  lemma NoAdmittedMeansDrained(e: Env, s: Ledger)
    requires Balanced(e, s.b)
    ensures s.b.admitted != [] ==> s.b.admitted[0] == s.b.persisted + 1 <= s.b.admittedHigh
    ensures s.b.admitted == [] && !HasFailed(s.b) ==> s.b.persisted == s.b.admittedHigh
    ensures s.b.pending == [] && !HasFailed(s.b) ==> s.b.admittedHigh == s.b.accepted
  {
    if s.b.admitted != [] { AckIsNext(s.b); }
  }

  /** The end of a consumer that died before its first step: the callback, or close, poisons on its behalf. */
  lemma BuryInv(e: Env, s: Ledger, code: Code)
    requires Inv(e, s) && s.task.Done?
    ensures Inv(e, Poison(s, code, Lowest(s.b), None, true).(consumer := ExitedError))
  {
    hide Balanced;
    PoisonInv(e, s, code, Lowest(s.b), None, true);
  }

  lemma ConsumerDoneInv(e: Env, s: Ledger)
    requires Inv(e, s)
    ensures Inv(e, ConsumerDone(s))
  {
    hide Balanced, Poison;
    if s.task.Done? && !s.doneSeen && s.consumer == ConsumerRunning {
      BuryInv(e, s, if s.task.cancelled then ConsumerCancelled else UnexpectedConsumerExit);
      PoisonEmpties(s, if s.task.cancelled then ConsumerCancelled else UnexpectedConsumerExit, Lowest(s.b));
    }
  }

  lemma StartInv(e: Env, s: Ledger, created: bool)
    requires Inv(e, s)
    ensures Inv(e, Start(s, created))
  {
    if s.consumer == NotStarted && s.state == New && !created {
      PoisonInv(e, s, ConsumerStart, Lowest(s.b), None, true);
      hide Balanced;
      assert Start(s, created) == Poison(s, ConsumerStart, Lowest(s.b), None, true).(consumer := ExitedError);
    } else {
      hide Balanced;
    }
  }

  lemma TimerInv(e: Env, s: Ledger, generation: nat)
    requires Inv(e, s)
    ensures Inv(e, TimerFires(e, s, generation))
  {
    hide Balanced, Control, Pump;
    DisarmControl(s, s.(timer := None));
    PumpInv(e, s.(timer := None));
  }

  // ---- close ---------------------------------------------------------------

  lemma CutoffControl(e: Env, s: Ledger)
    requires Control(s) && (s.state == New || s.state == Running) && s.close == NoClose
    ensures Control(s.(state := Closing, close := CloseFresh))
  {}

  lemma CloseInv(e: Env, s: Ledger)
    requires Inv(e, s)
    ensures Inv(e, Close(e, s))
  {
    hide Balanced, Pump;
    if s.close == NoClose && (s.state == New || s.state == Running) {
      CutoffControl(e, s);
      PumpInv(e, s.(state := Closing, close := CloseFresh));
    }
  }

  lemma FailsControl(s: Ledger)
    requires Control(s) && s.b.primary.Some? && s.b.admitted == []
    requires (s.task == NoTask || s.task.Done?) && s.consumer != ConsumerRunning
    requires !s.close.CloseDone? || s.close.result != ClosedWell
    requires s.close != NoClose && s.cached == NotCached
    ensures Control(CloseFails(s))
  {}

  /** What the close task knows once its consumer is gone. */
  ghost predicate Joined(s: Ledger) {
    && (s.task == NoTask || s.task.Done?) && s.consumer != ConsumerRunning
    && s.b.admitted == [] && s.b.pending == []
    && !s.close.CloseDone? && s.close != NoClose
    && (!HasFailed(s.b) ==> s.consumer == ExitedCloseStop && s.state == Closing)
  }

  /** Close certifies exactly when nothing failed: its inconsistency fallback is dead code here. */
  lemma FinishInv(e: Env, s: Ledger)
    requires Inv(e, s) && Joined(s)
    ensures Inv(e, CloseFinish(s.(consumerRef := false)))
    ensures CloseFinish(s.(consumerRef := false)).close == CloseDone(ClosedWell) <==> !HasFailed(s.b)
  {
    hide Balanced;
  }

  lemma StopControl(s: Ledger)
    requires Control(s) && s.b.pending == [] && s.consumerRef && s.task != NoTask
    requires s.close == CloseFresh || s.close == CloseWaiting
    ensures Control(RequestStop(s))
  {}

  lemma DrainsInv(e: Env, s: Ledger)
    requires Inv(e, s) && (s.close == CloseFresh || s.close == CloseWaiting) && s.consumerRef && s.task != NoTask
    ensures Inv(e, CloseDrains(e, s))
  {
    hide Balanced, Control, Pump;
    if s.b.pending == [] {
      StopControl(s);
    } else {
      var s0 := s.(pendingEmpty := false);
      DisarmControl(s, s0);
      PumpInv(e, s0);
      var s1 := Pump(e, s0);
      if s1.b.pending == [] { StopControl(s1); } else { WaitControl(s1); }
    }
  }

  lemma WaitControl(s: Ledger)
    requires Control(s) && s.consumerRef && s.task != NoTask && (s.close == CloseFresh || s.close == CloseWaiting)
    ensures Control(s.(close := CloseWaiting))
  {}

  lemma NothingAccepted(e: Env, b: Books)
    requires Balanced(e, b) && b.accepted == 0
    ensures b.persisted == 0 && b.torn == 0 && b.admitted == [] && b.pending == []
  {}

  lemma EmptyCloseInv(e: Env, s: Ledger)
    requires Inv(e, s) && s.close == CloseFresh && s.consumer == NotStarted
    requires s.b.accepted == 0 && s.b.primary.None?
    ensures Inv(e, CloseStarts(e, s))
  {
    hide Balanced;
    NothingAccepted(e, s.b);
  }

  lemma NoTaskCloseInv(e: Env, s: Ledger)
    requires Inv(e, s) && s.close == CloseFresh && !s.consumerRef
    ensures Inv(e, CloseStarts(e, s))
  {
    hide Balanced, Poison;
    assert s.task == NoTask || s.task.Done?;
    if s.consumer != NotStarted {
      PoisonInv(e, s, CloseInconsistency, Lowest(s.b), None, true);
      PoisonEmpties(s, CloseInconsistency, Lowest(s.b));
      FinishInv(e, Poison(s, CloseInconsistency, Lowest(s.b), None, true));
    } else if s.b.accepted == 0 && s.b.primary.None? {
      EmptyCloseInv(e, s);
    } else {
      PoisonInv(e, s, NoConsumer, Lowest(s.b), None, true);
      PoisonEmpties(s, NoConsumer, Lowest(s.b));
      FailsControl(Poison(s, NoConsumer, Lowest(s.b), None, true));
    }
  }

  lemma JoinInv(e: Env, s: Ledger)
    requires Inv(e, s) && s.close == CloseJoining
    ensures Inv(e, CloseJoins(s))
  {
    hide Balanced, Poison, CloseFinish;
    if s.task.Done? && s.task.cancelled && s.consumer == ConsumerRunning {
      BuryInv(e, s, ConsumerCancelled);
      PoisonInv(e, s, ConsumerCancelled, Lowest(s.b), None, true);
      PoisonEmpties(s, ConsumerCancelled, Lowest(s.b));
      FinishInv(e, Poison(s, ConsumerCancelled, Lowest(s.b), None, true).(consumer := ExitedError));
    } else if s.task.Done? {
      FinishInv(e, s);
    }
  }

  lemma CloseRunsInv(e: Env, s: Ledger)
    requires Inv(e, s)
    ensures Inv(e, CloseRuns(e, s))
  {
    hide Balanced, Poison, Pump, CloseFinish, CloseDrains, CloseJoins;
    match s.close
    case CloseFresh => if s.consumerRef { DrainsInv(e, s); } else { NoTaskCloseInv(e, s); }
    case CloseWaiting => DrainsInv(e, s);
    case CloseJoining => JoinInv(e, s);
    case _ =>
  }

  lemma CancelCloseInv(e: Env, s: Ledger)
    requires Inv(e, s)
    ensures Inv(e, CancelClose(s))
  {
    hide Balanced;
  }

  lemma CachedControl(s: Ledger)
    requires Control(s) && s.close.CloseDone? && s.cached == NotCached
    ensures s.close.result == ClosedWell ==> Control(s.(cached := Succeeded))
    ensures s.close.result != ClosedWell && s.b.primary.Some? ==>
      forall k :: Control(s.(cached := FailedWith(k), state := ClosedFailed)) && Control(s.(cached := FailedWith(k)))
  {}

  lemma CacheCloseInv(e: Env, s: Ledger)
    requires Inv(e, s)
    ensures Inv(e, CacheClose(s))
  {
    hide Balanced, Poison, Control;
    if s.close.CloseDone? && s.cached == NotCached {
      CachedControl(s);
      if s.close.result.ClosedWith? { ClosedWithFailed(s); }
      if s.close.result == CloseCancelled && s.b.primary.None? {
        PoisonInv(e, s, CloseInconsistency, Lowest(s.b), None, true);
        CachedControl(Poison(s, CloseInconsistency, Lowest(s.b), None, true));
      }
    }
  }

  lemma ClosedWithFailed(s: Ledger)
    requires Control(s) && s.close.CloseDone? && s.close.result.ClosedWith?
    ensures HasFailed(s.b)
  {}

  /** Every step keeps the invariant. */
  lemma StepInv(e: Env, s: Ledger, a: Action)
    requires Inv(e, s)
    ensures Inv(e, Step(e, s, a))
  {
    hide Inv;
    match a
    case DoStart(created) => StartInv(e, s, created);
    case DoSubmit(ev) => SubmitInv(e, s, ev, AdmissionPhase);
    case DoEmitAwaited(ev) => EmitAwaitedInv(e, s, ev);
    case DoTimer(generation) => TimerInv(e, s, generation);
    case DoConsumer => ConsumerRunsInv(e, s);
    case DoSinkWrites(n) => SinkWritesInv(e, s, n);
    case DoAppendReturns => AppendReturnsInv(e, s);
    case DoAppendRaises => AppendRaisesInv(e, s);
    case DoOrphanEnds => OrphanEndsInv(e, s);
    case DoCancelConsumer => CancelConsumerInv(e, s);
    case DoConsumerDone => ConsumerDoneInv(e, s);
    case DoClose => CloseInv(e, s);
    case DoCloseRuns => CloseRunsInv(e, s);
    case DoCancelClose => CancelCloseInv(e, s);
    case DoCacheClose => CacheCloseInv(e, s);
  }

  lemma {:induction false} RunInv(e: Env, s: Ledger, actions: seq<Action>)
    requires Inv(e, s)
    ensures Inv(e, Run(e, s, actions))
    decreases |actions|
  {
    if actions != [] {
      hide Inv, Step;
      StepInv(e, s, actions[0]);
      RunInv(e, Step(e, s, actions[0]), actions[1..]);
    }
  }
}
