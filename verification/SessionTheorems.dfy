/** What holds of a Session over every interleaving of guarded operations, crashes and host steps. */
module SessionTheorems {
  import opened Wrappers
  import opened Liveness
  import opened Sessions

  predicate Clean(d: Disk) {
    d.record.quarantine.None? && d.fence.None?
  }

  /** The identities in a lock name processes that had been born by `w`. */
  ghost predicate Known(lock: Option<Lock>, w: World) {
    lock.Some? ==>
      && Describes(lock.value.holder, w, lock.value.who)
      && (lock.value.child.Some? ==> Describes(lock.value.child.value, w, lock.value.childWho))
  }

  ghost predicate Since(s: State, since: nat) {
    since < |s.worlds| && Known(s.disk.lock, s.worlds[since])
  }

  /** What a caller inside the guard may rely on. */
  ghost predicate Holds(s: State, pc: Pc) {
    match pc
    case Idle => true
    case Waiting(op) => Begins(op)
    case Entered(op, since) => Begins(op) && Since(s, since)
    case Loaded(op, since, loaded) => Begins(op) && Since(s, since) && loaded == s.disk.record
        && (op.Acquire? ==> op.refuse)
    case Evidenced => s.disk.record.quarantine.Some?
    case Gated(op, since) => op.Acquire? && op.lease > 0 && Since(s, since) && (op.refuse ==> Clean(s.disk))
    case Unlocked(op, _) => op.Acquire? && op.lease > 0 && s.disk.lock.None? && (op.refuse ==> Clean(s.disk))
    case Leaving => true
  }

  ghost predicate Exclusive(s: State) {
    && (forall a: nat :: Inside(PcOf(s, a)) ==> s.guard == Some(a))
    && (s.guard.Some? ==> Inside(PcOf(s, s.guard.value)))
  }

  ghost predicate Tokens(s: State) {
    && (s.disk.lock.Some? ==> s.disk.lock.value.token < s.nextToken)
    && (forall k :: 0 <= k < |s.grants| ==> s.grants[k].token < s.nextToken)
    && (forall j, k :: 0 <= j < k < |s.grants| ==> s.grants[j].token < s.grants[k].token)
  }

  ghost predicate Inv(s: State) {
    && Moments(s.worlds)
    && Exclusive(s)
    && (forall a: nat :: Holds(s, PcOf(s, a)))
    && Known(s.disk.lock, Now(s))
    && Tokens(s)
  }

  lemma CreatedInv(record: Record, w: World)
    requires ValidWorld(w)
    ensures Inv(Created(record, w))
  {
  }

  lemma KnownLater(lock: Option<Lock>, w: World, w': World)
    requires Known(lock, w) && Later(w, w')
    ensures Known(lock, w')
  {
  }

  /** A caller outside the guard relies on nothing on disk, and only one is inside. */
  lemma OthersOutside(s: State, a: nat, b: nat)
    requires Inv(s) && Inside(PcOf(s, a)) && a != b
    ensures !Inside(PcOf(s, b))
  {
  }

  /** A step by the caller inside the guard: only what it itself and the disk rely on has to be shown again. */
  lemma Moved(s: State, s': State, a: nat)
    requires Inv(s) && s'.worlds == s.worlds && s'.pcs == s.pcs[a := PcOf(s', a)]
    requires Inside(PcOf(s, a)) && (if Inside(PcOf(s', a)) then s'.guard == s.guard else s'.guard == None)
    requires Holds(s', PcOf(s', a)) && Known(s'.disk.lock, Now(s)) && Tokens(s')
    ensures Inv(s')
  {
    hide Moments, Known, Tokens, Since;
    forall b: nat
      ensures Holds(s', PcOf(s', b))
    {
      if b != a {
        OthersOutside(s, a, b);
      }
    }
  }

  lemma EntryInv(s: State, a: nat, input: Input)
    requires Inv(s) && Possible(s, a, input) && PcOf(s, a).Entered?
    ensures Inv(Progress(s, a, input))
  {
    hide Moments, Describes, Truthful, ClassifyLock;
    assert Holds(s, PcOf(s, a));
    Moved(s, Progress(s, a, input), a);
  }

  lemma InsideInv(s: State, a: nat, input: Input)
    requires Inv(s) && Possible(s, a, input) && Inside(PcOf(s, a)) && !PcOf(s, a).Entered?
    ensures Inv(Progress(s, a, input))
  {
    hide Moments, Describes, Truthful, ClassifyLock;
    assert Holds(s, PcOf(s, a));
    Moved(s, Progress(s, a, input), a);
  }

  lemma HostInv(s: State, step: HostStep)
    requires Inv(s)
    ensures Inv(Step(s, Host(step)))
  {
    hide Describes;
    var s' := Step(s, Host(step));
    MomentsGrow(s.worlds, step);
    StepHostValid(Now(s), step);
    KnownLater(s.disk.lock, Now(s), Now(s'));
    forall b
      ensures Holds(s', PcOf(s', b))
    {
      assert Holds(s, PcOf(s, b));
    }
  }

  /** Asking for the guard, entering it and dying change nothing on disk. */
  lemma ArrivalInv(s: State, action: Action)
    requires Inv(s) && (action.Begin? || action.Enter? || action.Die?)
    ensures Inv(Step(s, action))
  {
    hide Moments, Known;
    var s' := Step(s, action);
    forall b: nat
      ensures Holds(s', PcOf(s', b))
    {
      assert Holds(s, PcOf(s, b));
    }
  }

  lemma StepInv(s: State, action: Action)
    requires Inv(s)
    ensures Inv(Step(s, action))
  {
    hide Inv, Possible;
    match action
    case Advance(a, input) =>
      if Possible(s, a, input) {
        if PcOf(s, a).Entered? {
          EntryInv(s, a, input);
        } else if Inside(PcOf(s, a)) {
          InsideInv(s, a, input);
        }
      }
    case Host(step) => HostInv(s, step);
    case _ => ArrivalInv(s, action);
  }

  lemma {:induction false} RunInv(s: State, actions: seq<Action>)
    requires Inv(s)
    ensures Inv(Run(s, actions))
    decreases |actions|
  {
    if actions != [] {
      StepInv(s, actions[0]);
      RunInv(Step(s, actions[0]), actions[1..]);
    }
  }

  // ---- quarantine --------------------------------------------------------------

  predicate Sealed(s: State) {
    !Clean(s.disk)
  }

  function Refusing(grants: seq<Grant>): seq<Grant> {
    if grants == [] then []
    else Refusing(grants[..|grants| - 1]) + if grants[|grants| - 1].refusing then [grants[|grants| - 1]] else []
  }

  lemma GrantAdds(grants: seq<Grant>, g: Grant)
    ensures Refusing(grants + [g]) == Refusing(grants) + if g.refusing then [g] else []
  {
    assert (grants + [g])[..|grants|] == grants;
  }

  lemma SealedStep(s: State, action: Action)
    requires Inv(s) && Sealed(s)
    ensures Sealed(Step(s, action))
    ensures Refusing(Step(s, action).grants) == Refusing(s.grants)
    ensures s.disk.record.quarantine.Some? ==> Step(s, action).disk.record == s.disk.record
  {
    hide Moments, Describes, Truthful, ClassifyLock;
    if action.Advance? {
      assert Holds(s, PcOf(s, action.a));
      if PcOf(s, action.a).Unlocked? {
        GrantAdds(s.grants, Grant(s.nextToken, PcOf(s, action.a).op.refuse));
      }
    }
  }

  /**
   * Once the fence or the evidence is on disk, then after any further run of anybody, one of them still is, not one
   * more lease was granted to a caller that refuses quarantined Sessions, and evidence already recorded is unchanged,
   * as is the whole record around it.
   */
  lemma {:induction false} QuarantineIsForever(s: State, actions: seq<Action>)
    requires Inv(s) && Sealed(s)
    ensures Sealed(Run(s, actions))
    ensures Refusing(Run(s, actions).grants) == Refusing(s.grants)
    ensures s.disk.record.quarantine.Some? ==> Run(s, actions).disk.record == s.disk.record
    decreases |actions|
  {
    if actions != [] {
      StepInv(s, actions[0]);
      SealedStep(s, actions[0]);
      QuarantineIsForever(Step(s, actions[0]), actions[1..]);
    }
  }

  /** Evidence appears only as what some caller marked, and a marker writes it only where none was. */
  lemma EvidenceIsMarked(s: State, action: Action)
    requires Inv(s) && Step(s, action).disk.record.quarantine != s.disk.record.quarantine
    ensures s.disk.record.quarantine.None? && action.Advance?
    ensures var pc := PcOf(s, action.a);
      pc.Loaded? && pc.op.Mark? && Step(s, action).disk.record.quarantine == Some(pc.op.ev)
  {
    hide Moments, Describes, Truthful, ClassifyLock;
    if action.Advance? {
      assert Holds(s, PcOf(s, action.a));
    }
  }

  /** A fence leaves the disk only once the evidence is there. */
  lemma FenceGoesAfterEvidence(s: State, action: Action)
    requires Inv(s) && s.disk.fence.Some? && Step(s, action).disk.fence.None?
    ensures s.disk.record.quarantine.Some? && Step(s, action).disk.record == s.disk.record
  {
    hide Moments, Describes, Truthful, ClassifyLock;
    if action.Advance? {
      assert Holds(s, PcOf(s, action.a));
    }
  }

  // ---- leases ------------------------------------------------------------------

  ghost predicate HasToken(s: State, token: nat) {
    s.disk.lock.Some? && s.disk.lock.value.token == token
  }

  ghost predicate AllDead(l: Lock, w: World) {
    l.who !in w.alive && (l.child.Some? ==> l.childWho !in w.alive)
  }

  /** The three ways a lease may end. */
  ghost predicate RightfullyEnded(s: State, action: Action, l: Lock) {
    && action.Advance?
    && var pc := PcOf(s, action.a);
    || (pc.Entered? && pc.op == Release(l.token))
    || (pc.Gated? && pc.op.Acquire? && l.expires <= action.input.moment)
    || (pc.Gated? && pc.op.Acquire? && pc.op.reclaim && l.reclaimable && |s.worlds| > 0 && AllDead(l, Now(s)))
  }

  lemma CrashedHolderIsDead(s: State, pc: Pc, l: Lock, input: Input)
    requires Inv(s) && pc.Gated? && Holds(s, pc) && s.disk.lock == Some(l)
    requires Truthful(input.probe, s.worlds[pc.since..]) && HolderCrashed(l, input.probe)
    ensures l.reclaimable && AllDead(l, Now(s))
  {
    hide Describes, Truthful, ClassifyLock, Later, ValidWorld;
    var ws := s.worlds[pc.since..];
    assert Moments(ws);
    assert ws[|ws| - 1] == Now(s);
    CrashedLockIsDead(l.holder, l.child, input.probe, ws, l.who, l.childWho);
  }

  lemma EndIsRightful(s: State, action: Action)
    requires Inv(s) && s.disk.lock.Some? && !HasToken(Step(s, action), s.disk.lock.value.token)
    ensures RightfullyEnded(s, action, s.disk.lock.value)
  {
    hide Moments, Describes, Truthful, ClassifyLock;
    if action.Advance? {
      var pc := PcOf(s, action.a);
      assert Holds(s, pc);
      if pc.Gated? && action.input.moment < s.disk.lock.value.expires {
        CrashedHolderIsDead(s, pc, s.disk.lock.value, action.input);
      }
    }
  }

  /** The step of a holder update that carries the lease's own token. */
  ghost predicate UpdatesHolder(s: State, action: Action, token: nat) {
    && action.Advance? && Possible(s, action.a, action.input)
    && PcOf(s, action.a).Entered? && PcOf(s, action.a).op.UpdateHolder? && PcOf(s, action.a).op.token == token
  }

  /**
   * While a lease stands, its lock file is changed only by a holder update with its own token. That keeps token, owner,
   * expiry and supervisor identity, and puts the process it names in the place of any child recorded before.
   */
  lemma LeaseKeepsIdentity(s: State, action: Action)
    requires Inv(s) && s.disk.lock.Some? && HasToken(Step(s, action), s.disk.lock.value.token)
    ensures var l, l' := s.disk.lock.value, Step(s, action).disk.lock.value;
      if UpdatesHolder(s, action, l.token) then l' == WithChild(l, PcOf(s, action.a).op, action.input) else l' == l
  {
    hide Moments, Describes, Truthful, ClassifyLock;
    if action.Advance? {
      assert Holds(s, PcOf(s, action.a));
    }
  }

  /** A second update forgets the first: only the child named last is left to protect the lease. */
  lemma SecondUpdateForgets(l: Lock, first: Op, x: Input, second: Op, y: Input)
    requires first.UpdateHolder? && second.UpdateHolder?
    ensures WithChild(WithChild(l, first, x), second, y) == WithChild(l, second, y)
  {
  }

  /** A token that is gone never comes back. */
  lemma GoneForGood(s: State, action: Action, token: nat)
    requires Inv(s) && token < s.nextToken && !HasToken(s, token)
    ensures token < Step(s, action).nextToken && !HasToken(Step(s, action), token)
  {
    hide Moments, Describes, Truthful, ClassifyLock;
    if action.Advance? {
      assert Holds(s, PcOf(s, action.a));
    }
  }

  lemma {:induction false} StaysGone(s: State, actions: seq<Action>, token: nat)
    requires Inv(s) && token < s.nextToken && !HasToken(s, token)
    ensures !HasToken(Run(s, actions), token)
    decreases |actions|
  {
    hide Inv, Step, HasToken;
    if actions != [] {
      StepInv(s, actions[0]);
      GoneForGood(s, actions[0], token);
      StaysGone(Step(s, actions[0]), actions[1..], token);
    }
  }

  ghost predicate SomeUpdate(s: State, actions: seq<Action>, token: nat) {
    exists k :: 0 <= k < |actions| && UpdatesHolder(Run(s, actions[..k]), actions[k], token)
  }

  lemma NoUpdateLater(s: State, actions: seq<Action>, token: nat)
    requires actions != [] && !SomeUpdate(s, actions, token)
    ensures !UpdatesHolder(s, actions[0], token) && !SomeUpdate(Step(s, actions[0]), actions[1..], token)
  {
    hide Step, UpdatesHolder;
    var next, rest := Step(s, actions[0]), actions[1..];
    assert Run(s, actions[..0]) == s;
    forall k | 0 <= k < |rest|
      ensures !UpdatesHolder(Run(next, rest[..k]), rest[k], token)
    {
      assert !UpdatesHolder(Run(s, actions[..k + 1]), actions[k + 1], token);
      assert actions[..k + 1][1..] == rest[..k];
    }
  }

  /**
   * Over any run: a lease still in force that no holder update with its token touched has the very lock it had, so a
   * lease updated once keeps the child that update recorded to its end.
   */
  lemma {:induction false} ChildStays(s: State, actions: seq<Action>)
    requires Inv(s) && s.disk.lock.Some? && HasToken(Run(s, actions), s.disk.lock.value.token)
    requires !SomeUpdate(s, actions, s.disk.lock.value.token)
    ensures Run(s, actions).disk.lock == s.disk.lock
    decreases |actions|
  {
    hide Step, UpdatesHolder, SomeUpdate, HasToken, Tokens;
    if actions != [] {
      var token, next := s.disk.lock.value.token, Step(s, actions[0]);
      NoUpdateLater(s, actions, token);
      StepInv(s, actions[0]);
      if HasToken(next, token) {
        LeaseKeepsIdentity(s, actions[0]);
        SameToken(next, token);
        ChildStays(next, actions[1..]);
      } else {
        TokenWasMinted(s, actions[0], token);
        StaysGone(next, actions[1..], token);
      }
    }
  }

  lemma {:induction false} RunAppend(s: State, a: seq<Action>, b: seq<Action>)
    ensures Run(s, a + b) == Run(Run(s, a), b)
    decreases |a|
  {
    hide Step;
    if a == [] {
      assert a + b == b;
    } else {
      assert (a + b)[1..] == a[1..] + b;
      RunAppend(Step(s, a[0]), a[1..], b);
    }
  }

  /**
   * Over any run: if a lease is in force at the end and step `k` was the last holder update with its token, then its
   * lock is exactly what that update made of it, and the child it names is the one that update named.
   */
  lemma LastUpdateNames(s: State, actions: seq<Action>, k: nat, token: nat)
    requires Inv(s) && k < |actions| && token < Run(s, actions[..k]).nextToken && HasToken(Run(s, actions), token)
    requires UpdatesHolder(Run(s, actions[..k]), actions[k], token)
    requires !SomeUpdate(Run(s, actions[..k + 1]), actions[k + 1..], token)
    ensures var before := Run(s, actions[..k]);
      && HasToken(before, token)
      && Run(s, actions).disk.lock
        == Some(WithChild(before.disk.lock.value, PcOf(before, actions[k].a).op, actions[k].input))
  {
    hide Step, UpdatesHolder, SomeUpdate, Inv, Run, PcOf;
    var before, next, rest := Run(s, actions[..k]), Run(s, actions[..k + 1]), actions[k + 1..];
    RunInv(s, actions[..k]);
    RunInv(s, actions[..k + 1]);
    assert actions == actions[..k + 1] + rest;
    RunAppend(s, actions[..k + 1], rest);
    assert actions[..k + 1] == actions[..k] + [actions[k]];
    RunAppend(s, actions[..k], [actions[k]]);
    RunLast(before, actions[k]);
    if !HasToken(before, token) {
      GoneForGood(before, actions[k], token);
      StaysGone(next, rest, token);
    } else if !HasToken(next, token) {
      StepInv(before, actions[k]);
      TokenWasMinted(before, actions[k], token);
      StaysGone(next, rest, token);
    } else {
      LeaseKeepsIdentity(before, actions[k]);
      ChildStays(next, rest);
    }
  }

  lemma RunLast(s: State, a: Action)
    ensures Run(s, [a]) == Step(s, a)
  {
    hide Step;
    assert [a][1..] == [];
    assert Run(Step(s, a), []) == Step(s, a);
  }

  lemma SameToken(s: State, token: nat)
    requires HasToken(s, token)
    ensures s.disk.lock.Some? && s.disk.lock.value.token == token
  {
  }

  lemma TokenWasMinted(s: State, action: Action, token: nat)
    requires Inv(s) && s.disk.lock.Some? && s.disk.lock.value.token == token
    ensures token < Step(s, action).nextToken
  {
    hide Moments, Describes, Truthful, ClassifyLock;
  }

  /**
   * Over any run: if the lease in force at the start is no longer in force at the end, then at some step of the run
   * it was released with its own token, or taken over at or after its expiry, or taken over by a reclaiming caller
   * when it was reclaimable and every process it named was dead.
   */
  lemma {:induction false} LeaseEndsRightfully(s: State, actions: seq<Action>)
    requires Inv(s) && s.disk.lock.Some? && !HasToken(Run(s, actions), s.disk.lock.value.token)
    ensures exists k :: 0 <= k < |actions| && EndsAt(s, actions, k, s.disk.lock.value.token)
    decreases |actions|
  {
    var token := s.disk.lock.value.token;
    var next := Step(s, actions[0]);
    if HasToken(next, token) {
      StepInv(s, actions[0]);
      LeaseEndsRightfully(next, actions[1..]);
      var k :| 0 <= k < |actions[1..]| && EndsAt(next, actions[1..], k, token);
      assert actions[..k + 1][1..] == actions[1..][..k];
      assert EndsAt(s, actions, k + 1, token);
    } else {
      EndIsRightful(s, actions[0]);
      assert actions[..0] == [];
      assert EndsAt(s, actions, 0, token);
    }
  }

  ghost predicate EndsAt(s: State, actions: seq<Action>, k: nat, token: nat)
    requires k < |actions|
  {
    var before := Run(s, actions[..k]);
    HasToken(before, token) && RightfullyEnded(before, actions[k], before.disk.lock.value)
  }

  /** The exclusive create under the guard never loses a race: the file is gone when it is reached. */
  lemma CreateNeverRaces(s: State, a: nat, input: Input)
    requires Inv(s) && PcOf(s, a).Unlocked? && Possible(s, a, input)
    ensures Progress(s, a, input).grants == s.grants + [Grant(s.nextToken, PcOf(s, a).op.refuse)]
    ensures HasToken(Progress(s, a, input), s.nextToken)
  {
    assert Holds(s, PcOf(s, a));
  }

  // ---- from a Session's creation -----------------------------------------------------

  /**
   * Of a Session as created, over everything that ever happens to it: once sealed it is never again leased to a
   * refusing caller.
   */
  lemma SealedFromCreation(record: Record, w: World, before: seq<Action>, after: seq<Action>)
    requires ValidWorld(w) && Sealed(Run(Created(record, w), before))
    ensures var s := Run(Created(record, w), before);
      && Sealed(Run(s, after)) && Refusing(Run(s, after).grants) == Refusing(s.grants)
      && (s.disk.record.quarantine.Some? ==> Run(s, after).disk.record == s.disk.record)
  {
    hide Inv, Run, Sealed;
    CreatedInv(record, w);
    RunInv(Created(record, w), before);
    QuarantineIsForever(Run(Created(record, w), before), after);
  }
}
