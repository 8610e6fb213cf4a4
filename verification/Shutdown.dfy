/**
 * The owned shutdown: admission closed, listener closed, Runs drained, registry idle, and only then the lease. The
 * lifecycle may fail, be cancelled or overrun in any phase and is begun again; registry work goes on throughout.
 */
module Shutdown {
  import Registry

  /** One attempt: 0 closes admission, 1 and 2 the listener, 3 cancels the Runs, 4 waits until none is registered. */
  datatype Lifecycle = NotBegun | Phase(n: nat) | Succeeded | Broken

  /** The task that owns the lifecycle: not made, made but not yet run, waiting for an attempt, between two, or over. */
  datatype Owned = NotOwned | Made | Awaiting | Sleeping | OwnedDone | OwnedCancelled

  datatype Caller = Serving | Stopping | Finished(reraises: bool) | Abandoned

  datatype Daemon = Daemon(registry: Registry.Table, lifecycle: Lifecycle, owned: Owned, caller: Caller,
                           leaseHeld: bool, cancelled: bool, overrunLogged: bool)

  datatype Action =
    | RegistryAct(action: Registry.Action)
    | Stop
    | LifecycleGoes
    | LifecycleBreaks
    | Overruns
    | OwnedGoes
    | CancelOwned
    | CallerGoes
    | CancelCaller

  function Started(max: nat): Daemon {
    Daemon(Registry.New(max), NotBegun, NotOwned, Serving, true, false, false)
  }

  function Advance(d: Daemon): Daemon
    requires d.lifecycle.Phase?
  {
    var n := d.lifecycle.n;
    if n == 0 then d.(registry := Registry.CloseAdmission(d.registry), lifecycle := Phase(1))
    else if n == 3 then d.(registry := Registry.ClearReservations(d.registry), lifecycle := Phase(4))
    else if n < 4 then d.(lifecycle := Phase(n + 1))
    else if d.registry.entries == map[] then d.(lifecycle := Succeeded)
    else d
  }

  /** What the waiting caller does: it goes on to the lease only when the owned task returned. */
  function Observe(d: Daemon): Daemon {
    if d.caller != Stopping then d
    else if d.owned == OwnedDone then d.(leaseHeld := false, caller := Finished(d.cancelled))
    else if d.owned == OwnedCancelled then d.(caller := Abandoned)
    else d
  }

  function Step(d: Daemon, action: Action): Daemon {
    match action
    case RegistryAct(a) => d.(registry := Registry.Step(d.registry, a))
    case Stop => if d.caller == Serving then d.(caller := Stopping, owned := Made) else d
    case LifecycleGoes => if d.lifecycle.Phase? then Advance(d) else d
    case LifecycleBreaks => if d.lifecycle.Phase? then d.(lifecycle := Broken) else d
    case Overruns => if d.owned == Awaiting then d.(overrunLogged := true) else d
    case OwnedGoes =>
      if d.owned == Awaiting && d.lifecycle == Succeeded then d.(owned := OwnedDone)
      else if d.owned == Awaiting && d.lifecycle == Broken then d.(owned := Sleeping)
      else if d.owned == Sleeping || d.owned == Made then d.(owned := Awaiting, lifecycle := Phase(0))
      else d
    case CancelOwned => if d.owned == Sleeping || d.owned == Made then d.(owned := OwnedCancelled) else d
    case CallerGoes => Observe(d)
    case CancelCaller => if d.caller == Stopping then Observe(d.(cancelled := true)) else d
  }

  function Run(d: Daemon, actions: seq<Action>): Daemon
    decreases |actions|
  {
    if actions == [] then d else Run(Step(d, actions[0]), actions[1..])
  }

  predicate Idle(d: Daemon) {
    !d.registry.open && d.registry.entries == map[] && d.registry.reservations == map[]
  }

  ghost predicate Inv(d: Daemon) {
    && Registry.Valid(d.registry)
    && (d.lifecycle.Phase? && d.lifecycle.n > 0 ==> !d.registry.open)
    && (d.lifecycle == Succeeded ==> Idle(d))
    && (d.owned == OwnedDone ==> Idle(d))
    && (!d.leaseHeld ==> Idle(d) && d.caller.Finished?)
    && (d.caller == Serving <==> d.owned == NotOwned)
    && Stages(d)
  }

  /** How the three tasks stand to each other. */
  predicate Stages(d: Daemon) {
    && (d.lifecycle.Phase? ==> d.lifecycle.n <= 4 && d.owned == Awaiting)
    && (d.caller.Finished? ==> d.owned == OwnedDone)
    && (d.owned == Awaiting ==> d.lifecycle != NotBegun)
    && (d.owned == Sleeping ==> d.lifecycle == Broken)
    && (d.caller.Finished? ==> !d.leaseHeld && d.caller.reraises == d.cancelled)
    && (d.caller == Serving ==> !d.cancelled)
  }

  lemma RegistryStaysIdle(d: Daemon, action: Registry.Action)
    requires Inv(d) && Idle(d)
    ensures Idle(Step(d, RegistryAct(action)))
  {
    Registry.StepValid(d.registry, action);
    var t' := Registry.Step(d.registry, action);
    assert t'.entries == map[] by { assert forall r :: r !in t'.entries; }
  }

  lemma RegistryInv(d: Daemon, action: Registry.Action)
    requires Inv(d)
    ensures Inv(Step(d, RegistryAct(action)))
  {
    Registry.StepValid(d.registry, action);
    if Idle(d) {
      RegistryStaysIdle(d, action);
    }
    hide Registry.Step, Registry.Valid;
  }

  lemma ClosedStaysEmpty(t: Registry.Table)
    requires Registry.Valid(t)
    ensures Registry.Valid(Registry.CloseAdmission(t)) && Registry.Valid(Registry.ClearReservations(t))
    ensures !t.open ==> t.reservations == map[]
  {
    Registry.StepValid(t, Registry.DoClose);
    Registry.StepValid(t, Registry.DoClear);
  }

  lemma StepInv(d: Daemon, action: Action)
    requires Inv(d)
    ensures Inv(Step(d, action))
    ensures !d.leaseHeld ==> !Step(d, action).leaseHeld
  {
    hide Registry.Valid, Registry.Step;
    if action.RegistryAct? {
      RegistryInv(d, action.action);
    } else {
      ClosedStaysEmpty(d.registry);
    }
  }

  /**
   * In every run of the daemon: if the lease has been released, admission is closed and nothing is registered or
   * reserved, then and ever after, whatever failed, overran or was cancelled on the way.
   */
  lemma {:induction false} LeaseOutlivesEveryRun(d: Daemon, actions: seq<Action>)
    requires Inv(d)
    ensures Inv(Run(d, actions))
    ensures !Run(d, actions).leaseHeld ==> Idle(Run(d, actions))
    ensures !d.leaseHeld ==> !Run(d, actions).leaseHeld
    decreases |actions|
  {
    hide Registry.Step, Registry.Valid, Step;
    if actions != [] {
      StepInv(d, actions[0]);
      LeaseOutlivesEveryRun(Step(d, actions[0]), actions[1..]);
    }
  }

  lemma StartedInv(max: nat)
    ensures Inv(Started(max))
  {
  }

  /** From the daemon's start. */
  lemma LeaseOutlivesFromStart(max: nat, actions: seq<Action>)
    ensures var d := Run(Started(max), actions); !d.leaseHeld ==> Idle(d) && d.caller.Finished?
  {
    hide Run;
    StartedInv(max);
    LeaseOutlivesEveryRun(Started(max), actions);
  }

  // ---- what the caller is told -------------------------------------------------------

  /** This action cancels the caller while it waits for the shutdown. */
  predicate Strikes(d: Daemon, a: Action) {
    a == CancelCaller && d.caller == Stopping
  }

  ghost predicate SomeStrike(d: Daemon, actions: seq<Action>) {
    exists k :: 0 <= k < |actions| && Strikes(Run(d, actions[..k]), actions[k])
  }

  lemma StrikeLater(d: Daemon, actions: seq<Action>)
    requires actions != []
    ensures SomeStrike(d, actions) <==> Strikes(d, actions[0]) || SomeStrike(Step(d, actions[0]), actions[1..])
  {
    hide Strikes, Step;
    var next, rest := Step(d, actions[0]), actions[1..];
    assert Run(d, actions[..0]) == d;
    forall k | 0 <= k < |rest|
      ensures Run(d, actions[..k + 1]) == Run(next, rest[..k]) && actions[k + 1] == rest[k]
    {
      assert actions[..k + 1][1..] == rest[..k];
    }
    if SomeStrike(d, actions) && !Strikes(d, actions[0]) {
      var k :| 0 <= k < |actions| && Strikes(Run(d, actions[..k]), actions[k]);
      assert Strikes(Run(next, rest[..k - 1]), rest[k - 1]);
    }
    if SomeStrike(next, rest) {
      var k :| 0 <= k < |rest| && Strikes(Run(next, rest[..k]), rest[k]);
      assert Strikes(Run(d, actions[..k + 1]), actions[k + 1]);
    }
  }

  lemma CancelledStep(d: Daemon, a: Action)
    ensures Step(d, a).cancelled <==> d.cancelled || Strikes(d, a)
  {
    hide Registry.Step;
  }

  lemma {:induction false} CancelledIff(d: Daemon, actions: seq<Action>)
    ensures Run(d, actions).cancelled <==> d.cancelled || SomeStrike(d, actions)
    decreases |actions|
  {
    hide Step, Strikes;
    if actions != [] {
      StrikeLater(d, actions);
      CancelledStep(d, actions[0]);
      CancelledIff(Step(d, actions[0]), actions[1..]);
    }
  }

  /**
   * In every run: a caller whose shutdown has finished is told of a cancellation exactly if one struck it, lease gone.
   */
  lemma CancelIsReraised(max: nat, actions: seq<Action>)
    requires Run(Started(max), actions).caller.Finished?
    ensures !Run(Started(max), actions).leaseHeld
    ensures Run(Started(max), actions).caller.reraises <==> SomeStrike(Started(max), actions)
  {
    hide Run, SomeStrike;
    StartedInv(max);
    LeaseOutlivesEveryRun(Started(max), actions);
    CancelledIff(Started(max), actions);
  }

  // ---- progress ----------------------------------------------------------------------

  /** How many turns of the shutdown's own tasks are left when nothing disturbs them. */
  function Rank(d: Daemon): nat {
    if d.caller.Finished? || d.caller == Abandoned then 0
    else
      match d.owned
      case NotOwned => 10
      case OwnedDone => 1
      case OwnedCancelled => 1
      case Sleeping => 8
      case Made => 8
      case Awaiting =>
        match d.lifecycle
        case Succeeded => 2
        case Phase(n) => if n <= 4 then 7 - n else 9
        case _ => 9
  }

  /** A turn of one of the shutdown's own tasks. */
  predicate Own(a: Action) {
    a == LifecycleGoes || a == OwnedGoes || a == CallerGoes
  }

  predicate Disturbs(a: Action) {
    a == LifecycleBreaks || a == CancelOwned
  }

  /** The shutdown is under way and the Runs are gone. */
  ghost predicate Draining(d: Daemon) {
    Inv(d) && Idle(d) && d.owned != OwnedCancelled && (d.caller == Stopping || d.caller.Finished?)
  }

  lemma IdleStays(d: Daemon, a: Action)
    requires Inv(d) && Idle(d)
    ensures Idle(Step(d, a))
  {
    hide Registry.Step, Registry.Valid;
    if a.RegistryAct? {
      RegistryStaysIdle(d, a.action);
    }
  }

  /** Nothing but a disturbance adds turns, and every own turn that does anything takes one. */
  lemma RankFalls(d: Daemon, a: Action)
    requires Draining(d) && !Disturbs(a)
    ensures Draining(Step(d, a)) && Rank(Step(d, a)) <= Rank(d)
    ensures Own(a) && Step(d, a) != d ==> Rank(Step(d, a)) < Rank(d)
  {
    hide Registry.Step, Registry.Valid;
    StepInv(d, a);
    IdleStays(d, a);
  }

  lemma RankBound(d: Daemon)
    requires Draining(d)
    ensures Rank(d) <= 9
  {
  }

  predicate CanMove(d: Daemon) {
    Step(d, LifecycleGoes) != d || Step(d, OwnedGoes) != d || Step(d, CallerGoes) != d
  }

  /** While the caller still waits, some own turn does something. */
  lemma NeverStuck(d: Daemon)
    requires Draining(d) && d.caller == Stopping
    ensures CanMove(d)
  {
    hide Registry.Valid;
  }

  /** Own turns that did something, along a run. */
  function Turns(d: Daemon, actions: seq<Action>): nat
    decreases |actions|
  {
    if actions == [] then 0
    else (if Own(actions[0]) && Step(d, actions[0]) != d then 1 else 0) + Turns(Step(d, actions[0]), actions[1..])
  }

  /**
   * Once the Runs are gone, in every run in which no phase breaks and the owned task is not cancelled, whatever the
   * registry is asked and however often the caller is cancelled: at most nine own turns do anything, some own turn can
   * always do something while the caller waits, and once the caller does not wait the lease is released.
   */
  lemma {:induction false} ReleasesOnceDrained(d: Daemon, actions: seq<Action>)
    requires Draining(d) && (forall i :: 0 <= i < |actions| ==> !Disturbs(actions[i]))
    ensures Draining(Run(d, actions)) && Turns(d, actions) + Rank(Run(d, actions)) <= Rank(d) <= 9
    ensures if Run(d, actions).caller == Stopping then CanMove(Run(d, actions)) else !Run(d, actions).leaseHeld
    decreases |actions|
  {
    hide Step, Rank, Own, CanMove;
    RankBound(d);
    if actions == [] {
      if d.caller == Stopping { NeverStuck(d); }
    } else {
      RankFalls(d, actions[0]);
      ReleasesOnceDrained(Step(d, actions[0]), actions[1..]);
    }
  }
}
