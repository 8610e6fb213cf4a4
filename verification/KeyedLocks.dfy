/**
 * Per-key locks whose entries are dropped when idle, used by any number of tasks that may be cancelled wherever they
 * are suspended. The guard's critical sections contain no await, so each is one step and the guard is never contended:
 * the only suspension inside `hold` is waiting for a key's lock that another task has, or that others wait for.
 */
module KeyedLocks {

  datatype Key = Key(principal: string, request: string)

  /** The two dictionaries; lock objects are told apart by number. */
  datatype Table = Table(locks: map<Key, nat>, waiters: map<Key, int>, next: nat)

  /** The first guarded section: find or make the lock, and be counted. */
  function Enrol(t: Table, key: Key): Table {
    var made := key !in t.locks;
    t.(locks := if made then t.locks[key := t.next] else t.locks,
       waiters := t.waiters[key := (if key in t.waiters then t.waiters[key] else 0) + 1],
       next := if made then t.next + 1 else t.next)
  }

  /** The second: be discounted, and drop the entry when nobody is left. */
  function Withdraw(t: Table, key: Key): Table {
    var remaining := (if key in t.waiters then t.waiters[key] else 1) - 1;
    if remaining <= 0 then t.(locks := t.locks - {key}, waiters := t.waiters - {key})
    else t.(waiters := t.waiters[key := remaining])
  }

  class Locks {
    var locks: map<Key, nat>
    var waiters: map<Key, int>
    var next: nat

    ghost function Contents(): Table
      reads this
    {
      Table(locks, waiters, next)
    }

    constructor ()
      ensures Contents() == Table(map[], map[], 0)
    {
      locks, waiters, next := map[], map[], 0;
    }

    method BeginHold(key: Key) returns (lock: nat)
      modifies this
      ensures Contents() == Enrol(old(Contents()), key) && key in locks && lock == locks[key]
    {
      if key !in locks {
        locks := locks[key := next];
        next := next + 1;
      }
      lock := locks[key];
      waiters := waiters[key := (if key in waiters then waiters[key] else 0) + 1];
    }

    method EndHold(key: Key)
      modifies this
      ensures Contents() == Withdraw(old(Contents()), key)
    {
      var remaining := (if key in waiters then waiters[key] else 1) - 1;
      if remaining <= 0 {
        waiters := waiters - {key};
        locks := locks - {key};
      } else {
        waiters := waiters[key := remaining];
      }
    }
  }

  // ---- tasks -----------------------------------------------------------------------

  /** Not yet in `hold`, suspended on the key's lock, inside the body, or between release and the second section. */
  datatype Pc =
    | Asking(key: Key)
    | WaitingFor(key: Key, lock: nat)
    | Holding(key: Key, lock: nat)
    | Leaving(key: Key)

  /** `owner` says which task has each lock object; `lost` counts, per key, the cancelled tasks that stayed counted. */
  datatype State = State(t: Table, tasks: map<nat, Pc>, owner: map<nat, nat>, lost: map<Key, nat>)

  datatype Action = Begin(id: nat, key: Key) | Go(id: nat) | Cancel(id: nat)

  const Initial := State(Table(map[], map[], 0), map[], map[], map[])

  function Lost(s: State, key: Key): nat {
    if key in s.lost then s.lost[key] else 0
  }

  function Gone(s: State, id: nat): State {
    s.(tasks := s.tasks - {id})
  }

  /** Acquiring suspends when the lock is taken or others are waiting for it; otherwise it does not. */
  predicate Busy(s: State, lock: nat) {
    lock in s.owner || exists id :: id in s.tasks && s.tasks[id].WaitingFor? && s.tasks[id].lock == lock
  }

  function Advance(s: State, id: nat): State
    requires id in s.tasks
  {
    match s.tasks[id]
    case Asking(key) =>
      var t' := Enrol(s.t, key);
      var lock := t'.locks[key];
      if Busy(s, lock) then s.(t := t', tasks := s.tasks[id := WaitingFor(key, lock)])
      else s.(t := t', owner := s.owner[lock := id], tasks := s.tasks[id := Holding(key, lock)])
    case WaitingFor(key, lock) =>
      if lock in s.owner then s else s.(owner := s.owner[lock := id], tasks := s.tasks[id := Holding(key, lock)])
    case Holding(key, lock) => s.(owner := s.owner - {lock}, tasks := s.tasks[id := Leaving(key)])
    case Leaving(key) => Gone(s, id).(t := Withdraw(s.t, key))
  }

  /**
   * Cancelled before it began: nothing. Suspended on the lock: gone, and still counted. In the body: the lock is
   * released first. A leaving task is not suspended, so no cancellation reaches it there.
   */
  function Cancelled(s: State, id: nat): State
    requires id in s.tasks
  {
    match s.tasks[id]
    case Asking(_) => Gone(s, id)
    case Holding(_, _) => Advance(s, id)
    case WaitingFor(key, _) => Gone(s, id).(lost := s.lost[key := Lost(s, key) + 1])
    case Leaving(key) => s
  }

  function Step(s: State, action: Action): State {
    match action
    case Begin(id, key) => if id in s.tasks then s else s.(tasks := s.tasks[id := Asking(key)])
    case Go(id) => if id in s.tasks then Advance(s, id) else s
    case Cancel(id) => if id in s.tasks then Cancelled(s, id) else s
  }

  function Run(s: State, actions: seq<Action>): State
    decreases |actions|
  {
    if actions == [] then s else Run(Step(s, actions[0]), actions[1..])
  }

  // ---- invariant -------------------------------------------------------------------

  predicate Counted(pc: Pc, key: Key) {
    !pc.Asking? && pc.key == key
  }

  function Active(s: State, key: Key): set<nat> {
    set id | id in s.tasks && Counted(s.tasks[id], key)
  }

  /** Each counter is exactly the tasks that will count down plus those that never will. */
  ghost predicate Tallied(s: State, key: Key) {
    if key in s.t.waiters then s.t.waiters[key] == |Active(s, key)| + Lost(s, key) && s.t.waiters[key] > 0
    else Active(s, key) == {} && Lost(s, key) == 0
  }

  /** Whoever waits for or holds a key uses the lock object now entered for it. */
  ghost predicate Current(s: State) {
    forall id :: id in s.tasks && (s.tasks[id].WaitingFor? || s.tasks[id].Holding?)
      ==> s.tasks[id].key in s.t.locks && s.t.locks[s.tasks[id].key] == s.tasks[id].lock
  }

  ghost predicate Owned(s: State) {
    && (forall id :: id in s.tasks && s.tasks[id].Holding? ==>
          s.tasks[id].lock in s.owner && s.owner[s.tasks[id].lock] == id)
    && (forall l :: l in s.owner ==>
          s.owner[l] in s.tasks && s.tasks[s.owner[l]].Holding? && s.tasks[s.owner[l]].lock == l)
  }

  ghost predicate Inv(s: State) {
    && (forall key: Key :: Tallied(s, key))
    && (forall key: Key :: key in s.t.locks <==> key in s.t.waiters)
    && (forall key: Key :: key in s.t.locks ==> s.t.locks[key] < s.t.next)
    && (forall k: Key, j: Key :: k in s.t.locks && j in s.t.locks && k != j ==> s.t.locks[k] != s.t.locks[j])
    && Current(s) && Owned(s)
  }

  /** Counted, and not yet given the lock. */
  function Enrolled(s: State, id: nat): State
    requires id in s.tasks && s.tasks[id].Asking?
  {
    var key := s.tasks[id].key;
    var t' := Enrol(s.t, key);
    s.(t := t', tasks := s.tasks[id := WaitingFor(key, t'.locks[key])])
  }

  lemma EnrolTallies(s: State, id: nat, k: Key)
    requires Tallied(s, k) && id in s.tasks && s.tasks[id].Asking?
    ensures Tallied(Enrolled(s, id), k)
  {
    var s', key := Enrolled(s, id), s.tasks[id].key;
    assert Active(s', k) == if k == key then Active(s, k) + {id} else Active(s, k);
  }

  lemma EnrolledInv(s: State, id: nat)
    requires Inv(s) && id in s.tasks && s.tasks[id].Asking?
    ensures Inv(Enrolled(s, id))
  {
    hide Tallied;
    var s' := Enrolled(s, id);
    forall k: Key
      ensures Tallied(s', k)
    {
      EnrolTallies(s, id, k);
    }
  }

  /** Not suspending is being counted and given the lock at once. */
  lemma EnrolInv(s: State, id: nat)
    requires Inv(s) && id in s.tasks && s.tasks[id].Asking?
    ensures Inv(Advance(s, id))
  {
    hide Inv, Enrol, Busy;
    var s1 := Enrolled(s, id);
    EnrolledInv(s, id);
    if !Busy(s, s1.tasks[id].lock) {
      FreeLock(s, s1.tasks[id].lock);
      TakeInv(s1, id);
      assert s1.tasks[id := Holding(s1.tasks[id].key, s1.tasks[id].lock)] == Advance(s, id).tasks;
    }
  }

  lemma FreeLock(s: State, lock: nat)
    requires !Busy(s, lock)
    ensures lock !in s.owner
  {
  }

  /** Changing where a task stands does not change the tally while it stays counted, or uncounted. */
  lemma SameTally(s: State, s': State, id: nat, k: Key)
    requires Tallied(s, k) && s'.t == s.t && s'.lost == s.lost && id in s'.tasks
        && s'.tasks == s.tasks[id := s'.tasks[id]]
    requires Counted(s'.tasks[id], k) <==> id in s.tasks && Counted(s.tasks[id], k)
    ensures Tallied(s', k)
  {
    assert Active(s', k) == Active(s, k);
  }

  lemma TakeOwned(s: State, id: nat)
    requires Owned(s) && id in s.tasks && s.tasks[id].WaitingFor?
    ensures Owned(Advance(s, id))
  {
  }

  lemma TakeInv(s: State, id: nat)
    requires Inv(s) && id in s.tasks && s.tasks[id].WaitingFor?
    ensures Inv(Advance(s, id))
  {
    hide Tallied, Owned;
    var s' := Advance(s, id);
    TakeOwned(s, id);
    forall k: Key
      ensures Tallied(s', k)
    {
      SameTally(s, s', id, k);
    }
  }

  lemma ReleaseInv(s: State, id: nat)
    requires Inv(s) && id in s.tasks && s.tasks[id].Holding?
    ensures Inv(Advance(s, id))
  {
    hide Tallied;
    var s' := Advance(s, id);
    forall k: Key
      ensures Tallied(s', k)
    {
      SameTally(s, s', id, k);
    }
  }

  lemma WithdrawTallies(s: State, id: nat, k: Key)
    requires Inv(s) && id in s.tasks && s.tasks[id].Leaving?
    ensures Tallied(Advance(s, id), k)
  {
    var s', key := Advance(s, id), s.tasks[id].key;
    assert Tallied(s, k) && id in Active(s, key);
    assert Active(s', k) == if k == key then Active(s, k) - {id} else Active(s, k);
  }

  /** The last one out drops the entry, and nobody else can be using it. */
  lemma WithdrawInv(s: State, id: nat)
    requires Inv(s) && id in s.tasks && s.tasks[id].Leaving?
    ensures Inv(Advance(s, id))
  {
    var s', key := Advance(s, id), s.tasks[id].key;
    forall k: Key
      ensures Tallied(s', k)
    {
      WithdrawTallies(s, id, k);
    }
    forall j | j in s'.tasks && (s'.tasks[j].WaitingFor? || s'.tasks[j].Holding?)
      ensures s'.tasks[j].key in s'.t.locks && s'.t.locks[s'.tasks[j].key] == s'.tasks[j].lock
    {
      assert j in Active(s', s'.tasks[j].key);
      assert Tallied(s', s'.tasks[j].key);
    }
  }

  lemma CancelTallies(s: State, id: nat, k: Key)
    requires Tallied(s, k) && id in s.tasks && (s.tasks[id].Asking? || s.tasks[id].WaitingFor?)
    ensures Tallied(Cancelled(s, id), k)
  {
    var s' := Cancelled(s, id);
    assert Active(s', k) == Active(s, k) - {id};
    if Counted(s.tasks[id], k) {
      assert id in Active(s, k);
    }
  }

  lemma CancelInv(s: State, id: nat)
    requires Inv(s) && id in s.tasks && (s.tasks[id].Asking? || s.tasks[id].WaitingFor?)
    ensures Inv(Cancelled(s, id))
  {
    hide Tallied;
    var s' := Cancelled(s, id);
    forall k: Key
      ensures Tallied(s', k)
    {
      CancelTallies(s, id, k);
    }
  }

  lemma BeginInv(s: State, id: nat, key: Key)
    requires Inv(s)
    ensures Inv(Step(s, Begin(id, key)))
  {
    hide Tallied;
    var s' := Step(s, Begin(id, key));
    if id !in s.tasks {
      forall k: Key
        ensures Tallied(s', k)
      {
        SameTally(s, s', id, k);
      }
    }
  }

  lemma StepInv(s: State, action: Action)
    requires Inv(s)
    ensures Inv(Step(s, action))
  {
    hide Inv, Advance;
    match action
    case Begin(id, key) => BeginInv(s, id, key);
    case Go(id) =>
      if id in s.tasks {
        match s.tasks[id]
        case Asking(_) => EnrolInv(s, id);
        case Leaving(_) => WithdrawInv(s, id);
        case WaitingFor(_, _) => TakeInv(s, id);
        case Holding(_, _) => ReleaseInv(s, id);
      }
    case Cancel(id) =>
      if id in s.tasks {
        match s.tasks[id]
        case Holding(_, _) => ReleaseInv(s, id);
        case Leaving(_) =>
        case _ => CancelInv(s, id);
      }
  }

  lemma {:induction false} RunInv(s: State, actions: seq<Action>)
    requires Inv(s)
    ensures Inv(Run(s, actions))
    decreases |actions|
  {
    if actions != [] {
      StepInv(s, actions[0]);
      RunInv(Step(s, actions[0]), actions[1..]);
    }
  }

  lemma InitialInv()
    ensures Inv(Initial)
  {
    assert forall key: Key :: Active(Initial, key) == {};
  }

  // ---- theorems --------------------------------------------------------------------

  /** In every run, at most one task holds a key. */
  lemma MutualExclusion(actions: seq<Action>, a: nat, b: nat)
    requires var s := Run(Initial, actions);
      a in s.tasks && b in s.tasks && s.tasks[a].Holding? && s.tasks[b].Holding? && s.tasks[a].key == s.tasks[b].key
    ensures a == b
  {
    InitialInv();
    RunInv(Initial, actions);
  }

  /** And all who wait for it or hold it use one lock object. */
  lemma OneLockPerKey(actions: seq<Action>, a: nat, b: nat)
    requires var s := Run(Initial, actions);
      && a in s.tasks && b in s.tasks && (s.tasks[a].WaitingFor? || s.tasks[a].Holding?)
      && (s.tasks[b].WaitingFor? || s.tasks[b].Holding?) && s.tasks[a].key == s.tasks[b].key
    ensures var s := Run(Initial, actions); s.tasks[a].lock == s.tasks[b].lock
  {
    InitialInv();
    RunInv(Initial, actions);
  }

  /** This action cancels a task that is suspended on the key's lock. */
  ghost predicate Strikes(s: State, a: Action, key: Key) {
    a.Cancel? && a.id in s.tasks && s.tasks[a.id].WaitingFor? && s.tasks[a.id].key == key
  }

  ghost predicate SomeStrike(s: State, actions: seq<Action>, key: Key) {
    exists k :: 0 <= k < |actions| && Strikes(Run(s, actions[..k]), actions[k], key)
  }

  lemma StrikeLater(s: State, actions: seq<Action>, key: Key)
    requires actions != []
    ensures SomeStrike(s, actions, key)
        <==> Strikes(s, actions[0], key) || SomeStrike(Step(s, actions[0]), actions[1..], key)
  {
    hide Strikes, Step;
    var next, rest := Step(s, actions[0]), actions[1..];
    assert Run(s, actions[..0]) == s;
    forall k | 0 <= k < |rest|
      ensures Run(s, actions[..k + 1]) == Run(next, rest[..k]) && actions[k + 1] == rest[k]
    {
      assert actions[..k + 1][1..] == rest[..k];
    }
    if SomeStrike(s, actions, key) && !Strikes(s, actions[0], key) {
      var k :| 0 <= k < |actions| && Strikes(Run(s, actions[..k]), actions[k], key);
      assert Strikes(Run(next, rest[..k - 1]), rest[k - 1], key);
    }
    if SomeStrike(next, rest, key) {
      var k :| 0 <= k < |rest| && Strikes(Run(next, rest[..k]), rest[k], key);
      assert Strikes(Run(s, actions[..k + 1]), actions[k + 1], key);
    }
  }

  lemma LostStep(s: State, a: Action, key: Key)
    ensures Lost(Step(s, a), key) == Lost(s, key) + if Strikes(s, a, key) then 1 else 0
  {
  }

  lemma {:induction false} LostIff(s: State, actions: seq<Action>, key: Key)
    ensures Lost(Run(s, actions), key) > 0 <==> Lost(s, key) > 0 || SomeStrike(s, actions, key)
    decreases |actions|
  {
    hide Step, Strikes, Lost;
    if actions != [] {
      StrikeLater(s, actions, key);
      LostStep(s, actions[0], key);
      LostIff(Step(s, actions[0]), actions[1..], key);
    }
  }

  /** An idle key keeps an entry exactly when, somewhere in the run, a task suspended on its lock was cancelled. */
  lemma IdleEntryIff(actions: seq<Action>, key: Key)
    requires Active(Run(Initial, actions), key) == {}
    ensures key in Run(Initial, actions).t.locks <==> SomeStrike(Initial, actions, key)
  {
    hide SomeStrike, Run;
    InitialInv();
    RunInv(Initial, actions);
    LostIff(Initial, actions, key);
    assert Tallied(Run(Initial, actions), key);
  }

  /** Two tasks: the second is cancelled while it waits for the first, the first leaves, and the entry stays. */
  function TwoTasks(key: Key): seq<Action> {
    [Begin(0, key), Go(0), Begin(1, key), Go(1), Cancel(1), Go(0), Go(0)]
  }

  lemma {:induction false} RunAppend(s: State, a: seq<Action>, b: seq<Action>)
    ensures Run(s, a + b) == Run(Run(s, a), b)
    decreases |a|
  {
    hide Step;
    if a == [] {
      assert a + b == b;
    } else {
      assert (a + b)[1..] == a[1..] + b;
      RunAppend(Step(s, a[0]), a[1..], b);
    }
  }

  lemma RunTwo(s: State, a: Action, b: Action)
    ensures Run(s, [a, b]) == Step(Step(s, a), b)
  {
    hide Step;
    assert [a, b][1..] == [b] && [b][1..] == [];
    assert Run(Step(s, a), [b]) == Run(Step(Step(s, a), b), []);
  }

  lemma EntryCanBeLost(key: Key)
    ensures var s := Run(Initial, TwoTasks(key)); s.tasks == map[] && s.owner == map[] && key in s.t.locks
  {
    var s2 := Step(Step(Initial, Begin(0, key)), Go(0));
    assert s2 == State(Table(map[key := 0], map[key := 1], 1), map[0 := Holding(key, 0)], map[0 := 0], map[]);
    var s4 := Step(Step(s2, Begin(1, key)), Go(1));
    assert s4.t == Table(map[key := 0], map[key := 2], 1) && s4.owner == map[0 := 0]
        && s4.tasks == map[0 := Holding(key, 0), 1 := WaitingFor(key, 0)];
    var s6 := Step(Step(s4, Cancel(1)), Go(0));
    assert s6.t == s4.t && s6.owner == map[] && s6.tasks == map[0 := Leaving(key)];
    var s7 := Step(s6, Go(0));
    assert s7.tasks == map[];
    hide Step;
    var a, b, c, d := [Begin(0, key), Go(0)], [Begin(1, key), Go(1)], [Cancel(1), Go(0)], [Go(0)];
    assert TwoTasks(key) == a + (b + (c + d));
    RunAppend(Initial, a, b + (c + d));
    RunAppend(s2, b, c + d);
    RunAppend(s4, c, d);
    RunTwo(Initial, Begin(0, key), Go(0));
    RunTwo(s2, Begin(1, key), Go(1));
    RunTwo(s4, Cancel(1), Go(0));
    assert d[1..] == [];
    assert Run(s6, d) == Run(s7, []);
  }
}
