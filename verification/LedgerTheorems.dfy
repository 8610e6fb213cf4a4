/** What holds in every run of the event ledger. */
module LedgerTheorems {
  import opened Wrappers
  import opened QueuePolicy
  import opened Ledger
  import opened LedgerInvariant
  import opened LedgerFacts
  import opened LedgerSteps
  import opened LedgerCodes

  lemma Reachable(e: Env, actions: seq<Action>)
    requires ValidEnv(e)
    ensures Inv(e, Run(e, Initial, actions))
  {
    InitialInv(e);
    RunInv(e, Initial, actions);
  }

  /**
   In every reachable state the books are in order: as long as nothing failed,
   the accepted numbers split into the contiguous blocks persisted, admitted
   and pending; both byte counters are the exact sums; every ceiling of the
   current tier and every global ceiling holds; the tier's ceilings are
   initial * factor^tier; and capacity never outruns durable progress.
   */
  lemma BlocksAndCeilings(e: Env, actions: seq<Action>)
    requires ValidEnv(e)
    ensures
      var b := Run(e, Initial, actions).b;
      && Counts(b) && Queues(b) && Ceilings(e, b)
      && (!HasFailed(b) ==>
            b.admitted == Range(b.persisted, b.admittedHigh) && b.pending == Range(b.admittedHigh, b.accepted))
      && e.tiers.capacities[b.tier] == e.tiers.policy.initialEventCapacity * Pow(e.tiers.policy.growthFactor, b.tier)
      && e.tiers.budgets[b.tier] == e.tiers.policy.initialQueuedBytes * Pow(e.tiers.policy.growthFactor, b.tier)
      && b.tier <= b.growthMark <= b.persisted
  {
    Reachable(e, actions);
  }

  /**
   With a working clock and timer, in every run whatever is cancelled: neither
   the self-check, nor the deadline-order check, nor the acknowledgement guard
   fires, the truncation marker always fits and no consumer exits unseen,
   except exactly when an append returns to a ledger whose close was cancelled
   and whose outcome was then cached.
   */
  lemma SelfChecksFireIff(e: Env, actions: seq<Action>)
    requires ValidEnv(e) && Healthy(e)
    ensures (forall k :: k in Run(e, Initial, actions).b.raised ==> Expected(k.code))
      <==> !SomeLateReturn(e, Initial, actions)
  {
    hide SomeLateReturn, Run;
    InitialInv(e);
    RunCalmIff(e, Initial, actions);
  }

  /** The self-check holds in every reachable state, whatever fails or is cancelled, and so does the deadline order. */
  lemma SelfCheckAlwaysPasses(e: Env, actions: seq<Action>)
    requires ValidEnv(e)
    ensures var s := Run(e, Initial, actions);
      && CheckPasses(e, s)
      && (e.clock(s.b.ticks).Some? && s.b.lastDeadline.Some? ==>
            s.b.lastDeadline.value <= e.clock(s.b.ticks).value + e.tiers.policy.producerTimeout)
  {
    hide Balanced, Control, Quiet, CheckPasses, Run;
    Reachable(e, actions);
    var s := Run(e, Initial, actions);
    CheckNeverTrips(e, s, 1);
    if e.clock(s.b.ticks).Some? {
      DeadlinesInOrder(e, s.b, e.clock(s.b.ticks).value);
    }
  }

  /** The reported failure is the least ever raised, so it does not depend on the order they came in. */
  lemma ReportedFailureIsLeast(e: Env, actions: seq<Action>, k: Key)
    requires ValidEnv(e)
    ensures var b := Run(e, Initial, actions).b; b.primary == Some(k) <==> IsLeast(k, b.raised)
  {
    Reachable(e, actions);
    var b := Run(e, Initial, actions).b;
    if IsLeast(k, b.raised) {
      var p := b.primary.value;
      assert p in b.raised && k in b.raised;
      assert k == p || Less(k, p);
      assert p == k || Less(p, k);
    }
  }

  /** The acknowledged lines in order, then at most a prefix of the next line. */
  ghost predicate FileIs(b: Books) {
    && b.persisted <= |b.tickets|
    && Lines(b.tickets, b.persisted) <= b.file
    && (b.persisted == |b.tickets| ==> b.file == Lines(b.tickets, b.persisted))
    && (b.persisted < |b.tickets| ==> b.file <= Lines(b.tickets, b.persisted) + b.tickets[b.persisted].wire)
  }

  lemma TornLine(b: Books)
    requires Counts(b) && FileOk(b)
    ensures FileIs(b)
  {
    hide Lines;
    if b.torn > 0 {
      var line := b.tickets[b.persisted].wire;
      assert line == line[..b.torn] + line[b.torn..];
      assert Lines(b.tickets, b.persisted) + line == b.file + line[b.torn..];
    }
  }

  /** The durable file is the acknowledged lines in order, then at most a prefix of the next line. */
  lemma FileIsAcknowledgedLines(e: Env, actions: seq<Action>)
    requires ValidEnv(e)
    ensures FileIs(Run(e, Initial, actions).b)
  {
    hide Counts, Queues, Ceilings, Phases, Times, Failures, FileOk, Control, Quiet, FileIs, Run;
    Reachable(e, actions);
    TornLine(Run(e, Initial, actions).b);
  }

  /** A close that reported success certifies: the file is exactly all accepted lines and all phases settled well. */
  lemma CloseCertifies(e: Env, actions: seq<Action>)
    requires ValidEnv(e)
    ensures
      var s := Run(e, Initial, actions);
      s.cached == Succeeded ==>
        && s.b.persisted == s.b.accepted == |s.b.tickets|
        && s.b.file == Lines(s.b.tickets, s.b.accepted)
        && forall i: nat :: i < |s.b.tickets| ==>
             Good(s.b.tickets[i].admission, i + 1) && Good(s.b.tickets[i].persistence, i + 1)
  {
    Reachable(e, actions);
    var s := Run(e, Initial, actions);
    if s.cached == Succeeded {
      forall i: nat | i < |s.b.tickets|
        ensures Good(s.b.tickets[i].admission, i + 1) && Good(s.b.tickets[i].persistence, i + 1)
      {
        assert PhaseOk(s.b, i);
      }
    }
  }

  /** In any state of any run, no ticket is admission-failed and yet persisted. */
  lemma NeverFailedYetPersisted(e: Env, actions: seq<Action>, i: nat)
    requires ValidEnv(e)
    ensures var b := Run(e, Initial, actions).b;
      i < |b.tickets| ==> !(Bad(b.tickets[i].admission, i + 1) && Good(b.tickets[i].persistence, i + 1))
  {
    hide Run;
    Reachable(e, actions);
    var b := Run(e, Initial, actions).b;
    if i < |b.tickets| { assert PhaseOk(b, i); }
  }

  /** Every accepted ticket has both phases settled. */
  ghost predicate AllSettled(b: Books) {
    forall i: nat :: i < |b.tickets| ==> b.tickets[i].admission.Some? && b.tickets[i].persistence.Some?
  }

  lemma SettledIffEmpty(e: Env, b: Books)
    requires Balanced(e, b)
    ensures AllSettled(b) <==> b.pending == [] && b.admitted == []
  {
    if b.pending != [] {
      assert PhaseOk(b, b.admittedHigh);
      assert b.tickets[b.admittedHigh].admission.None?;
    } else if b.admitted != [] {
      assert PhaseOk(b, b.persisted);
      assert b.tickets[b.persisted].persistence.None?;
    } else {
      forall i: nat | i < |b.tickets|
        ensures b.tickets[i].admission.Some? && b.tickets[i].persistence.Some?
      {
        assert PhaseOk(b, i);
      }
    }
  }

  /** What the end of the close task already says of the queues. */
  lemma CloseEndsWith(e: Env, s: Ledger)
    requires Inv(e, s) && s.close.CloseDone?
    ensures HasFailed(s.b) ==> s.b.pending == []
    ensures s.close.result != CloseCancelled ==> s.b.pending == [] && s.b.admitted == []
  {}

  /**
   When the close task's end is cached, which is before any caller of close is
   answered, every phase of every accepted ticket is settled, except exactly
   when the task was cancelled while an earlier failure was still draining.
   */
  lemma CachingSettlesIff(e: Env, s: Ledger)
    requires Inv(e, s) && s.close.CloseDone? && s.cached == NotCached
    ensures CacheClose(s).cached != NotCached
    ensures AllSettled(CacheClose(s).b)
      <==> !(s.close.result == CloseCancelled && HasFailed(s.b) && s.b.admitted != [])
  {
    hide AllSettled, Balanced, Control, Poison;
    CacheCloseInv(e, s);
    CloseEndsWith(e, s);
    PoisonEmpties(s, CloseInconsistency, Lowest(s.b));
    SettledIffEmpty(e, CacheClose(s).b);
  }

  /**
   And in every run, from then on: once a close outcome is cached nothing is
   pending, all is settled exactly when nothing is left admitted, and something
   can be left admitted only by a cancelled close.
   */
  lemma CloseSettlesIff(e: Env, actions: seq<Action>)
    requires ValidEnv(e)
    ensures var s := Run(e, Initial, actions);
      s.cached != NotCached ==>
        && s.b.pending == []
        && (AllSettled(s.b) <==> s.b.admitted == [])
        && (s.b.admitted != [] ==> s.close == CloseDone(CloseCancelled) && HasFailed(s.b))
  {
    hide AllSettled, Run;
    Reachable(e, actions);
    SettledIffEmpty(e, Run(e, Initial, actions).b);
  }

  // ---- deadlines and stalling ----------------------------------------------

  lemma DeadlinesSorted(e: Env, b: Books, i: nat, j: nat)
    requires Balanced(e, b) && i <= j < |b.tickets|
    ensures b.tickets[i].deadline <= b.tickets[j].deadline
  {
    assert TimeOk(e, b, i) && TimeOk(e, b, j);
  }

  /** The timer is set to a waiting deadline, and to none later than that of waiting ticket `n`. */
  ghost predicate Covers(s: Ledger, n: nat) {
    && 1 <= n <= |s.b.tickets| && HasHead(s.b)
    && s.timer == Some(Head(s.b).deadline)
    && Head(s.b).deadline <= s.b.tickets[n - 1].deadline
  }

  lemma TimerCovers(e: Env, s: Ledger, n: nat)
    requires Inv(e, s) && Open(s) && n in s.b.pending
    ensures Covers(s, n)
  {
    HeadIsNext(s.b);
    InRange(s.b.admittedHigh, s.b.accepted, n);
    DeadlinesSorted(e, s.b, s.b.admittedHigh, n - 1);
  }

  /** While anything waits, the one armed timer is set to the earliest of all waiting deadlines. */
  lemma OneTimerCoversAll(e: Env, actions: seq<Action>, n: nat)
    requires ValidEnv(e)
    ensures var s := Run(e, Initial, actions); Open(s) && n in s.b.pending ==> Covers(s, n)
  {
    hide Inv, Covers, Run;
    Reachable(e, actions);
    if Open(Run(e, Initial, actions)) && n in Run(e, Initial, actions).b.pending {
      TimerCovers(e, Run(e, Initial, actions), n);
    }
  }

  /** No ticket was ever admitted at or after its deadline, even when there was room. */
  lemma NeverAdmittedLate(e: Env, actions: seq<Action>, i: nat)
    requires ValidEnv(e)
    ensures
      var b := Run(e, Initial, actions).b;
      i < |b.tickets| && Good(b.tickets[i].admission, i + 1) ==>
        e.clock(b.tickets[i].admitRead).Some? && e.clock(b.tickets[i].admitRead).value < b.tickets[i].deadline
  {
    Reachable(e, actions);
    var b := Run(e, Initial, actions).b;
    if i < |b.tickets| { assert TimeOk(e, b, i) && PhaseOk(b, i); }
  }

  ghost predicate NoneExpired(e: Env, b: Books) {
    && b.ticks > 0 && e.clock(b.ticks - 1).Some? && Known(b.tickets, b.pending)
    && forall i :: 0 <= i < |b.pending| ==> e.clock(b.ticks - 1).value < b.tickets[b.pending[i] - 1].deadline
  }

  lemma {:induction false} LoopBeatsDeadlines(e: Env, s: Ledger)
    requires Balanced(e, s.b) && Control(s) && Open(s)
    ensures var exit := PumpLoop(e, s);
      !exit.poisoned && HasHead(exit.s.b) ==>
        exit.s.b.ticks > 0 && e.clock(exit.s.b.ticks - 1).Some?
        && e.clock(exit.s.b.ticks - 1).value < Head(exit.s.b).deadline
    decreases |s.b.pending|, |e.tiers.capacities| - s.b.tier
  {
    hide Balanced, Control, Poison, Live;
    if HasHead(s.b) && e.clock(s.b.ticks).Some? && e.clock(s.b.ticks).value < Head(s.b).deadline {
      var s1 := s.(b := Tick(s.b));
      TickBalanced(e, s.b);
      BooksControl(s, s1.b);
      if Room(e, s.b, Head(s.b).nbytes) {
        AdmitBalanced(e, s1.b, s.b.ticks);
        AdmitControl(e, s1, s.b.ticks);
        LoopBeatsDeadlines(e, s1.(b := AdmitHead(s1.b, s.b.ticks), wakeup := true));
      } else if CanGrow(e, s) {
        GrowBalanced(e, s1.b);
        BooksControl(s1, Grow(s1.b));
        LoopBeatsDeadlines(e, s1.(b := Grow(s1.b)));
      }
    }
  }

  lemma HeadSpeaksForAll(e: Env, b: Books)
    requires Balanced(e, b) && HasHead(b)
    requires b.ticks > 0 && e.clock(b.ticks - 1).Some? && e.clock(b.ticks - 1).value < Head(b).deadline
    ensures NoneExpired(e, b)
  {
    HeadIsNext(b);
    forall i | 0 <= i < |b.pending|
      ensures e.clock(b.ticks - 1).value < b.tickets[b.pending[i] - 1].deadline
    {
      DeadlinesSorted(e, b, b.admittedHigh, b.pending[i] - 1);
    }
  }

  /** After any pump that leaves the writer open, no waiting ticket is past its deadline. */
  lemma PumpLeavesNoneExpired(e: Env, s: Ledger)
    requires Balanced(e, s.b) && Control(s) && Open(s)
    ensures Open(Pump(e, s)) && Pump(e, s).b.pending != [] ==> NoneExpired(e, Pump(e, s).b)
  {
    hide Balanced, Control, Pump, PumpLoop, NoneExpired, Frame;
    LoopBeatsDeadlines(e, s);
    PumpInv(e, s);
    var s' := Pump(e, s);
    if Open(s') && s'.b.pending != [] {
      PumpBooks(e, s);
      HeadFacts(e, s'.b);
      HeadSpeaksForAll(e, s'.b);
    }
  }

  lemma PumpBooks(e: Env, s: Ledger)
    requires Balanced(e, s.b) && Control(s) && Open(s) && Open(Pump(e, s))
    ensures !PumpLoop(e, s).poisoned && Pump(e, s).b == PumpLoop(e, s).s.b
  {
    hide Balanced, CheckPasses;
    LoopInv(e, s);
    var exit := PumpLoop(e, s);
    if !exit.poisoned {
      var s1 := exit.s.(pendingEmpty := exit.s.b.pending == []);
      RearmInv(e, s1);
      CheckNeverTrips(e, Rearm(e, s1), Lowest(Rearm(e, s1).b));
    }
  }

  /**
   Something waits while nothing is admitted only when the waiting head alone
   exceeds the byte budget of the current tier; so the ledger cannot stall
   when every legal record fits the initial budget.
   */
  lemma NoStall(e: Env, actions: seq<Action>)
    requires ValidEnv(e)
    ensures
      var s := Run(e, Initial, actions);
      Open(s) && s.b.pending != [] ==>
        && HasHead(s.b) && s.b.tier < |e.tiers.budgets|
        && (s.b.admitted == [] ==> Head(s.b).nbytes > e.tiers.budgets[s.b.tier])
        && (e.maxEventBytes <= e.tiers.policy.initialQueuedBytes ==> s.b.admitted != [])
  {
    Reachable(e, actions);
    var s := Run(e, Initial, actions);
    if Open(s) && s.b.pending != [] {
      HeadIsNext(s.b);
      TierBounds(e.tiers, s.b.tier);
    }
  }
}
