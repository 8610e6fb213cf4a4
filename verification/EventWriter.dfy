/**
 The event writer itself: loops that empty queues, sum charges and pump, and
 an object whose synchronous methods update its state in place. Every method is
 proved against the step function of module `Ledger` that specifies it, so the
 theorems about runs are theorems about this object.
 */
module EventWriter {
  import opened Wrappers
  import opened L = Ledger
  import opened LedgerInvariant
  import opened LedgerFacts
  import opened LedgerSteps

  // ---- the loops -----------------------------------------------------------

  /** Every pending ticket fails both phases, in queue order. */
  method FailPendingQueue(tickets: seq<Ticket>, pending: seq<nat>, code: Code, victim: Option<nat>)
    returns (r: seq<Ticket>)
    requires Known(tickets, pending)
    ensures r == FailTickets(tickets, pending, [], code, victim)
  {
    r := tickets;
    var queue := pending;
    while queue != []
      invariant Known(r, queue)
      invariant FailTickets(r, queue, [], code, victim) == FailTickets(tickets, pending, [], code, victim)
      decreases |queue|
    {
      FailOnePending(r, queue, code, victim);
      var n := queue[0];
      queue := queue[1..];
      r := r[n - 1 := FailPending(r[n - 1], code, victim == Some(n))];
    }
    FailNothing(r, code, victim);
  }

  /** Every admitted ticket fails its persistence phase, in queue order. */
  method FailAdmittedQueue(tickets: seq<Ticket>, admitted: seq<nat>, code: Code) returns (r: seq<Ticket>)
    requires Known(tickets, admitted)
    ensures r == FailTickets(tickets, [], admitted, code, None)
  {
    r := tickets;
    var queue := admitted;
    while queue != []
      invariant Known(r, queue)
      invariant FailTickets(r, [], queue, code, None) == FailTickets(tickets, [], admitted, code, None)
      decreases |queue|
    {
      FailOneAdmitted(r, queue, code);
      var n := queue[0];
      queue := queue[1..];
      r := r[n - 1 := FailAdmitted(r[n - 1], code)];
    }
    FailNothing(r, code, None);
  }

  lemma FailNothing(tickets: seq<Ticket>, code: Code, victim: Option<nat>)
    ensures FailTickets(tickets, [], [], code, victim) == tickets
  {}

  lemma FailOnePending(tickets: seq<Ticket>, pending: seq<nat>, code: Code, victim: Option<nat>)
    requires pending != [] && Known(tickets, pending)
    ensures var n := pending[0];
      FailTickets(tickets[n - 1 := FailPending(tickets[n - 1], code, victim == Some(n))], pending[1..], [], code,
          victim)
      == FailTickets(tickets, pending, [], code, victim)
  {
    assert pending == [pending[0]] + pending[1..];
  }

  lemma FailOneAdmitted(tickets: seq<Ticket>, admitted: seq<nat>, code: Code)
    requires admitted != [] && Known(tickets, admitted)
    ensures var n := admitted[0];
      FailTickets(tickets[n - 1 := FailAdmitted(tickets[n - 1], code)], [], admitted[1..], code, None)
      == FailTickets(tickets, [], admitted, code, None)
  {
    assert admitted == [admitted[0]] + admitted[1..];
  }

  /** Failing one queue after the other fails both, since no ticket waits in two queues. */
  lemma FailBoth(tickets: seq<Ticket>, pending: seq<nat>, admitted: seq<nat>, code: Code, victim: Option<nat>)
    requires forall n :: n in pending ==> n !in admitted
    ensures FailTickets(FailTickets(tickets, pending, [], code, victim), [], admitted, code, None)
         == FailTickets(tickets, pending, admitted, code, victim)
  {}

  lemma QueuesKnown(b: Books)
    requires Counts(b) && Queues(b)
    ensures Known(b.tickets, b.pending) && Known(b.tickets, b.admitted)
    ensures forall n :: n in b.pending ==> n !in b.admitted
  {
    forall n | n in b.pending ensures n !in b.admitted {
      InRange(b.persisted, b.admittedHigh, n);
      InRange(b.admittedHigh, b.accepted, n);
    }
  }

  /** The charge of a queue, summed ticket by ticket as the self-check does. */
  method SumCharges(tickets: seq<Ticket>, ids: seq<nat>) returns (total: nat)
    requires Known(tickets, ids)
    ensures total == Bytes(tickets, ids)
  {
    total := 0;
    var i := |ids|;
    while i > 0
      invariant 0 <= i <= |ids|
      invariant total == Bytes(tickets, ids[i..])
    {
      i := i - 1;
      assert ids[i..][1..] == ids[i + 1..];
      total := total + tickets[ids[i] - 1].nbytes;
    }
    assert ids[0..] == ids;
  }

  /** The funnel on a value: both queues are emptied ticket by ticket. */
  method Funnel(s: L.Ledger, code: Code, ordinal: int, victim: Option<nat>, impossible: bool) returns (r: L.Ledger)
    requires Counts(s.b) && Queues(s.b)
    ensures r == Poison(s, code, ordinal, victim, impossible)
  {
    hide FailTickets, Counts, Queues;
    QueuesKnown(s.b);
    FailBoth(s.b.tickets, s.b.pending, s.b.admitted, code, victim);
    var key := Key(if ordinal < 1 then 1 else ordinal, code);
    var b := s.b.(
      raised := s.b.raised + [key],
      primary := if s.b.primary.None? || Less(key, s.b.primary.value) then Some(key) else s.b.primary,
      pending := [], pendingBytes := 0);
    var tickets := FailPendingQueue(s.b.tickets, s.b.pending, code, victim);
    var cannotPersist := impossible || s.consumer != ConsumerRunning;
    if cannotPersist {
      tickets := FailAdmittedQueue(tickets, s.b.admitted, code);
      b := b.(admitted := [], queuedBytes := 0);
    }
    b := b.(tickets := tickets);
    assert b == PoisonBooks(s.b, key, victim, cannotPersist);
    r := s.(b := b,
            state := if s.state == ClosedFailed then ClosedFailed else Failing,
            stop := false,
            timer := None,
            generation := s.generation + 1,
            pendingEmpty := true,
            inFlight := if cannotPersist then None else s.inFlight,
            drain := s.drain || !cannotPersist,
            wakeup := true);
  }

  /** The pump loop: deadline first, then room, then growth, one head at a time. */
  method PumpLoopRuns(e: Env, s: L.Ledger) returns (exit: LoopExit)
    requires Balanced(e, s.b) && Control(s) && Open(s)
    ensures exit == PumpLoop(e, s)
  {
    hide Balanced, Control, L.Poison, Frame;
    var t := s;
    while t.b.pending != []
      invariant Balanced(e, t.b) && Control(t) && Open(t)
      invariant PumpLoop(e, t) == PumpLoop(e, s)
      decreases |t.b.pending|, |e.tiers.capacities| - t.b.tier
    {
      HeadFacts(e, t.b);
      TickBalanced(e, t.b);
      BooksControl(t, Tick(t.b));
      var head := Head(t.b);
      var read := t.b.ticks;
      var t1 := t.(b := Tick(t.b));
      match e.clock(read) {
        case None =>
          BooksQueues(e, t1.b);
          var r := Funnel(t1, LedgerInvariant, head.seqNo, None, !Live(t));
          return LoopExit(r, true);
        case Some(now) =>
          if now >= head.deadline {
            BooksQueues(e, t1.b);
            var r := Funnel(t1, ProducerTimeout, head.seqNo, Some(t.b.pending[0]), false);
            return LoopExit(r, true);
          }
          if Room(e, t.b, head.nbytes) {
            AdmitBalanced(e, t1.b, read);
            AdmitControl(e, t1, read);
            t := t1.(b := AdmitHead(t1.b, read), wakeup := true);
          } else if CanGrow(e, t) {
            GrowBalanced(e, t1.b);
            BooksControl(t1, Grow(t1.b));
            t := t1.(b := Grow(t1.b));
          } else {
            return LoopExit(t1, false);
          }
      }
    }
    exit := LoopExit(t, false);
  }

  lemma BooksQueues(e: Env, b: Books)
    requires Balanced(e, b)
    ensures Counts(b) && Queues(b)
  {}

  // ---- the object ------------------------------------------------------------

  class EventWriter {
    const env: Env
    var s: L.Ledger

    ghost predicate Valid()
      reads this
    {
      Inv(env, s)
    }

    constructor (env: Env)
      requires ValidEnv(env)
      ensures this.env == env && s == Initial && Valid()
    {
      this.env := env;
      s := Initial;
      InitialInv(env);
    }

    /** The one absorbing failure funnel. */
    method Poison(code: Code, ordinal: int, victim: Option<nat>, impossible: bool)
      requires Valid()
      modifies this
      ensures Valid() && s == L.Poison(old(s), code, ordinal, victim, impossible)
    {
      hide Balanced, Control, Quiet, L.Poison, Frame;
      BooksQueues(env, s.b);
      PoisonInv(env, s, code, ordinal, victim, impossible);
      s := Funnel(s, code, ordinal, victim, impossible);
    }

    /** The deadline-first pump; `s0` is the state it is entered with, consistent but not yet pumped. */
    method PumpFrom(s0: L.Ledger)
      requires Balanced(env, s0.b) && Control(s0) && (!Open(s0) ==> Quiet(env, s0))
      modifies this
      ensures Valid() && s == Pump(env, s0)
    {
      hide Balanced, Control, Quiet, L.Poison, Frame, CheckPasses, PumpLoop, Rearm;
      PumpInv(env, s0);
      if !Open(s0) {
        s := DisarmTimer(s0);
        return;
      }
      LoopInv(env, s0);
      var exit := PumpLoopRuns(env, s0);
      if exit.poisoned {
        s := exit.s;
        return;
      }
      var s1 := exit.s.(pendingEmpty := exit.s.b.pending == []);
      DisarmControl(exit.s, s1);
      RearmInv(env, s1);
      CheckNeverTrips(env, Rearm(env, s1), Lowest(Rearm(env, s1).b));
      s := Rearm(env, s1);
    }

    /** Acceptance: gate, pump, render, pump again, bounds, deadline, commit, pump. */
    method Submit(ev: Event, phase: Phase) returns (reply: Reply)
      requires Valid()
      modifies this
      ensures Valid()
      ensures (s, reply) == L.Submit(env, old(s), ev, phase)
    {
      hide Balanced, Control, Quiet, L.Poison, Frame, Pump, Submitted, AcceptChecked;
      SubmitInv(env, s, ev, phase);
      if !Accepting(s) { return RefusedBy(s); }
      PumpFrom(s);
      if !Accepting(s) { return RefusedBy(s); }
      var n := s.b.accepted + 1;
      var prepared := Prepare(env, ev, n);
      if prepared.Err? {
        Poison(prepared.error, n, None, false);
        return RefusedBy(s);
      }
      PumpFrom(s);
      if !Accepting(s) { return RefusedBy(s); }
      reply := Accept(prepared.value, phase);
    }

    method Accept(wire: string, phase: Phase) returns (reply: Reply)
      requires Valid() && Accepting(s) && |wire| <= env.maxEventBytes
      modifies this
      ensures Valid()
      ensures (s, reply) == AcceptChecked(env, old(s), wire, phase)
    {
      hide Balanced, Control, Quiet, L.Poison, Frame, Pump, Submitted, CheckPasses, Commit;
      AcceptInv(env, s, wire, phase);
      var n := s.b.accepted + 1;
      if s.b.accepted >= env.maxEvents {
        Poison(MaxEvents, n, None, false);
        return RefusedBy(s);
      }
      if |s.b.pending| >= env.tiers.policy.maxEventCapacity {
        Poison(SaturatedCount, n, None, false);
        return RefusedBy(s);
      }
      if s.b.pendingBytes + s.b.queuedBytes + |wire| > env.tiers.policy.maxQueuedBytes {
        Poison(SaturatedBytes, n, None, false);
        return RefusedBy(s);
      }
      var now := env.clock(s.b.ticks);
      if now.None? {
        s := s.(b := Tick(s.b));
        return ClockRaised;
      }
      DeadlinesInOrder(env, s.b, now.value);
      CommitParts(env, s, wire);
      PumpFrom(Committed(env, s, wire));
      reply := Answer(s, n, phase);
    }

    /** One durable acknowledgement, after the append of the head returned. */
    method Acknowledge()
      requires Valid() && s.task.Appending? && s.b.persisted < |s.b.tickets|
      requires s.b.torn == |s.b.tickets[s.b.persisted].wire|
      modifies this
      ensures Valid() && s == DurableAck(env, Returned(old(s)), old(s.task.seqNo))
    {
      hide Balanced, Control, Quiet, L.Poison, Frame, Pump, CheckPasses, AckHead, Acked;
      AckGuard(env, s);
      AckInv(env, s);
      var n := s.task.seqNo;
      if s.b.admitted == [] {
        BooksQueues(env, s.b);
        s := Funnel(Returned(s), LedgerInvariant, n, None, true);
        return;
      }
      AckBalanced(env, s.b);
      AckControl(env, s);
      AckQuiet(env, s);
      var s1 := Returned(s).(b := AckHead(s.b), inFlight := None);
      CheckNeverTrips(env, s1, n);
      PumpFrom(s1);
      WakeInv(env, s);
      s := s.(wakeup := true);
    }

    /** The synchronous close cutoff. */
    method Close()
      requires Valid()
      modifies this
      ensures Valid() && s == L.Close(env, old(s))
    {
      hide Balanced, Control, Quiet, L.Poison, Frame, Pump;
      CloseInv(env, s);
      if s.close != NoClose { return; }
      if s.state == New || s.state == Running {
        CutoffControl(env, s);
        PumpFrom(s.(state := Closing, close := CloseFresh));
      } else {
        s := s.(close := CloseFresh);
      }
    }
  }
}
