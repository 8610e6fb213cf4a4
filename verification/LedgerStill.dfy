/** A still world, in which no deadline passes: the ledger's steps in it do not fail by themselves. */
module LedgerStill {
  import opened Wrappers
  import opened QueuePolicy
  import opened L = Ledger
  import opened LedgerInvariant
  import opened LedgerFacts
  import opened LedgerSteps

  /** Time stands still and every timer can be armed. */
  ghost predicate Still(e: Env) {
    && ValidEnv(e)
    && (forall i: nat :: e.clock(i) == Some(0.0))
    && (forall g: nat :: e.arm(g))
  }

  lemma HeadNotDue(e: Env, b: Books)
    requires Still(e) && Balanced(e, b) && HasHead(b)
    ensures Head(b).deadline > 0.0
  {
    assert TimeOk(e, b, b.pending[0] - 1);
  }

  lemma {:induction false} StillLoop(e: Env, s: L.Ledger)
    requires Still(e) && Balanced(e, s.b) && Control(s) && Open(s)
    ensures !PumpLoop(e, s).poisoned && PumpLoop(e, s).s.b.primary == s.b.primary
    decreases |s.b.pending|, |e.tiers.capacities| - s.b.tier
  {
    hide Balanced, Control, Poison, Live;
    if HasHead(s.b) {
      HeadNotDue(e, s.b);
      var s1 := s.(b := Tick(s.b));
      TickBalanced(e, s.b);
      BooksControl(s, s1.b);
      if Room(e, s.b, Head(s.b).nbytes) {
        AdmitBalanced(e, s1.b, s.b.ticks);
        AdmitControl(e, s1, s.b.ticks);
        StillLoop(e, s1.(b := AdmitHead(s1.b, s.b.ticks), wakeup := true));
      } else if CanGrow(e, s) {
        GrowBalanced(e, s1.b);
        BooksControl(s1, Grow(s1.b));
        StillLoop(e, s1.(b := Grow(s1.b)));
      }
    }
  }

  lemma StillPump(e: Env, s: L.Ledger)
    requires Still(e) && Balanced(e, s.b) && Control(s) && Open(s) && !HasFailed(s.b)
    ensures !HasFailed(Pump(e, s).b) && Inv(e, Pump(e, s)) && Frame(s, Pump(e, s))
  {
    hide Balanced, Control, CheckPasses, PumpLoop, Poison, Frame;
    StillLoop(e, s);
    LoopInv(e, s);
    PumpInv(e, s);
    var s1 := PumpLoop(e, s).s;
    var s2 := s1.(pendingEmpty := s1.b.pending == []);
    DisarmControl(s1, s2);
    RearmInv(e, s2);
    CheckNeverTrips(e, Rearm(e, s2), Lowest(Rearm(e, s2).b));
  }

  /** One line accepted by a running writer with a live consumer, and nothing persisted yet. */
  ghost predicate One(e: Env, s: L.Ledger) {
    Inv(e, s) && !HasFailed(s.b) && s.b.accepted == 1 && s.b.persisted == 0 && Open(s) && Live(s)
  }

  /** Every legal line fits the initial byte budget. */
  predicate Roomy(e: Env) {
    e.maxEventBytes <= e.tiers.policy.initialQueuedBytes
  }

  lemma OneIsAdmitted(e: Env, s: L.Ledger)
    requires One(e, s) && Roomy(e)
    ensures s.b.admitted == [1] && s.b.pending == [] && |s.b.tickets| == 1
  {
    if s.b.pending != [] {
      HeadIsNext(s.b);
      TierBounds(e.tiers, s.b.tier);
    }
  }

  lemma EmptyBooks(e: Env, b: Books)
    requires Balanced(e, b) && b.accepted == 0
    ensures b.pending == [] && b.pendingBytes == 0 && b.queuedBytes == 0
    ensures 0 < e.tiers.policy.maxEventCapacity && e.tiers.policy.initialQueuedBytes <= e.tiers.policy.maxQueuedBytes
  {
    assert b.admitted == [];
    TierBounds(e.tiers, 0);
  }

  lemma StillSubmit(e: Env, s: L.Ledger, ev: Event)
    requires Still(e) && Roomy(e) && Inv(e, s) && s.state == Running && Live(s) && s.b.accepted == 0 == s.b.persisted
    requires ev.full.Some? && |ev.full.value| <= e.maxEventBytes
    ensures var s' := Submit(e, s, ev, AdmissionPhase).0;
      One(e, s') && s'.task == s.task && s'.state == Running && s'.close == s.close && s'.cached == s.cached
  {
    hide Balanced, Control, CheckPasses, PumpLoop, Poison, Pump, Quiet;
    NotFailed(s);
    StillPump(e, s);
    var s1 := Pump(e, s);
    StillPump(e, s1);
    var s2 := Pump(e, s1);
    EmptyBooks(e, s2.b);
    CommitParts(e, s2, ev.full.value);
    DeadlinesInOrder(e, s2.b, 0.0);
    StillPump(e, Committed(e, s2, ev.full.value));
  }

  lemma NotFailed(s: L.Ledger)
    requires Control(s) && Open(s)
    ensures !HasFailed(s.b)
  {}

  lemma Started(e: Env)
    requires Still(e)
    ensures var s := Start(Initial, true);
      && Inv(e, s) && s.state == Running && Live(s) && s.b == Initial.b && s.task == Fresh
      && s.close == NoClose && s.cached == NotCached
  {
    InitialInv(e);
    StartInv(e, Initial, true);
  }

  lemma {:induction false} RunAppend(e: Env, s: L.Ledger, a: seq<Action>, b: seq<Action>)
    ensures Run(e, s, a + b) == Run(e, Run(e, s, a), b)
    decreases |a|
  {
    hide Step;
    if a == [] {
      assert a + b == b;
    } else {
      assert (a + b)[1..] == a[1..] + b;
      RunAppend(e, Step(e, s, a[0]), a[1..], b);
    }
  }

  lemma RunTwo(e: Env, s: L.Ledger, a: Action, b: Action)
    ensures Run(e, s, [a, b]) == Step(e, Step(e, s, a), b)
  {
    hide Step;
    assert [a, b][1..] == [b] && [b][1..] == [];
    assert Run(e, Step(e, s, a), [b]) == Run(e, Step(e, Step(e, s, a), b), []);
  }

  lemma RunSix(e: Env, s: L.Ledger, a: seq<Action>)
    requires |a| == 6
    ensures var s2 := Step(e, Step(e, s, a[0]), a[1]);
      var s4 := Step(e, Step(e, s2, a[2]), a[3]);
      Run(e, s, a) == Step(e, Step(e, s4, a[4]), a[5])
  {
    hide Step, Run;
    var x, y, z := [a[0], a[1]], [a[2], a[3]], [a[4], a[5]];
    assert a == x + (y + z);
    RunAppend(e, s, x, y + z);
    RunAppend(e, Run(e, s, x), y, z);
    RunTwo(e, s, a[0], a[1]);
    RunTwo(e, Run(e, s, x), a[2], a[3]);
    RunTwo(e, Run(e, Run(e, s, x), y), a[4], a[5]);
  }

  const LINE := "{\"seq\": 1}\n"
  const ONE_LINE := Event(Some(LINE), None)

  /** There is such a world. */
  lemma StillWorld()
    ensures var policy := Policy(1, 1, 2, 256, 256, 1.0);
      var e := Env(256, 10, Tiers(policy, [1], [256]), _ => Some(0.0), _ => true);
      Still(e) && Roomy(e)
  {
    assert Pow(2, 0) == 1;
  }
}
