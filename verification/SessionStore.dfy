/** The Session store's operations as calls that run to the end, and their agreement with the interleaved steps. */
module SessionStore {
  import opened Wrappers
  import opened Liveness
  import opened Sessions
  import opened SessionTheorems

  datatype Failure = Quarantined | Locked | NoLock | WrongToken | BadLease

  /** What one uninterrupted operation makes of the directory. */
  function Whole(d: Disk, token: nat, op: Op, input: Input): Disk {
    match op
    case WriteFence(ev) => d.(fence := Some(ev))
    case Mark(ev) =>
      d.(record := if d.record.quarantine.Some? then d.record
                   else d.record.(quarantine := Some(ev), updatedAt := ev.recordedAt),
         fence := None)
    case CommitEffective(_, _, _) => if d.record.quarantine.Some? then d else d.(record := Committed(op, d.record))
    case CommitObservation(_, _) => if d.record.quarantine.Some? then d else d.(record := Committed(op, d.record))
    case Acquire(_, _, _, _, _) => if Refusal(d, op, input).Some? then d
        else d.(lock := Some(Minted(op, token, input.moment, input)))
    case UpdateHolder(_, _) => if Refusal(d, op, input).Some? then d
        else d.(lock := Some(WithChild(d.lock.value, op, input)))
    case Release(_) => if Refusal(d, op, input).Some? then d else d.(lock := None)
  }

  function Refusal(d: Disk, op: Op, input: Input): (r: Option<Failure>)
    ensures r.None? && (op.UpdateHolder? || op.Release?) ==> d.lock.Some? && d.lock.value.token == op.token
    ensures r.None? && op.Acquire? && op.refuse ==> Clean(d)
  {
    match op
    case WriteFence(_) => None
    case Mark(_) => None
    case CommitEffective(_, _, _) => if d.record.quarantine.Some? then Some(Quarantined) else None
    case CommitObservation(_, _) => if d.record.quarantine.Some? then Some(Quarantined) else None
    case Acquire(refuse, _, lease, _, _) =>
      if lease <= 0 then Some(BadLease)
      else if refuse && !Clean(d) then Some(Quarantined)
      else if d.lock.Some? && Blocks(d.lock.value, op, input) then Some(Locked)
      else None
    case UpdateHolder(token, _) =>
      if d.lock.None? then Some(NoLock) else if d.lock.value.token != token then Some(WrongToken) else None
    case Release(token) =>
      if d.lock.None? then Some(NoLock) else if d.lock.value.token != token then Some(WrongToken) else None
  }

  /** One caller's steps with nobody in between. */
  function Solo(a: nat, op: Op, input: Input): seq<Action> {
    var go := Advance(a, input);
    [Begin(a, op), Enter(a), go, go, go, go, go]
  }

  ghost predicate Undisturbed(s: State, a: nat, op: Op, input: Input) {
    && Inv(s) && s.guard.None? && PcOf(s, a).Idle? && Begins(op)
    && Describes(input.identity, Now(s), input.who) && Truthful(input.probe, s.worlds[|s.worlds| - 1..])
  }

  lemma RunTwo(s: State, first: Action, rest: seq<Action>)
    ensures Run(s, [first] + rest) == Run(Step(s, first), rest)
  {
    assert ([first] + rest)[1..] == rest;
  }

  /** Once inside, the caller's own steps are exactly Progress. */
  lemma Advances(s: State, a: nat, input: Input, n: nat)
    requires |s.worlds| > 0 && Describes(input.identity, Now(s), input.who)
    requires PcOf(s, a).Gated? && PcOf(s, a).since < |s.worlds| ==> Truthful(input.probe, s.worlds[PcOf(s, a).since..])
    requires n > 0
    ensures Run(s, seq(n, _ => Advance(a, input))) == Run(Progress(s, a, input), seq(n - 1, _ => Advance(a, input)))
  {
    hide Describes, Truthful, Progress;
    assert seq(n, _ => Advance(a, input))[1..] == seq(n - 1, _ => Advance(a, input));
  }

  function Went(s: State, a: nat, input: Input, n: nat): State {
    if n == 0 then s else Progress(Went(s, a, input, n - 1), a, input)
  }

  /** The guard is free, the caller is back, and the directory is what the whole operation makes of it. */
  ghost predicate DoneWith(s: State, s': State, a: nat, op: Op, input: Input) {
    && s'.guard.None? && PcOf(s', a).Idle? && s'.worlds == s.worlds
    && s'.nextToken == (if op.Acquire? && Refusal(s.disk, op, input).None? then s.nextToken + 1 else s.nextToken)
    && s'.disk == Whole(s.disk, s.nextToken, op, input)
    && s'.grants == s.grants + if op.Acquire? && Refusal(s.disk, op, input).None? then [Grant(s.nextToken, op.refuse)]
        else []
  }

  function AtGuard(s: State, a: nat, op: Op): State
    requires |s.worlds| > 0
  {
    Goto(Goto(s, a, Waiting(op)), a, Entered(op, |s.worlds| - 1)).(guard := Some(a))
  }

  lemma Unroll(s: State, a: nat, input: Input)
    ensures var s2 := Progress(Progress(s, a, input), a, input);
      Went(s, a, input, 5) == Progress(Progress(Progress(s2, a, input), a, input), a, input)
  {
    hide Progress;
    assert Went(s, a, input, 1) == Progress(s, a, input);
    assert Went(s, a, input, 3) == Progress(Went(s, a, input, 2), a, input);
  }

  lemma AcquireDone(s: State, a: nat, op: Op, input: Input)
    requires |s.worlds| > 0 && s.guard.None? && Begins(op) && op.Acquire?
    ensures DoneWith(s, Went(AtGuard(s, a, op), a, input, 5), a, op, input)
  {
    hide Blocks, Went, Committed;
    Unroll(AtGuard(s, a, op), a, input);
  }

  lemma RecordDone(s: State, a: nat, op: Op, input: Input)
    requires |s.worlds| > 0 && s.guard.None? && Begins(op) && (op.Mark? || op.CommitEffective? || op.CommitObservation?)
    ensures DoneWith(s, Went(AtGuard(s, a, op), a, input, 5), a, op, input)
  {
    hide Blocks, Went, Committed;
    Unroll(AtGuard(s, a, op), a, input);
  }

  lemma ProgressDone(s: State, a: nat, op: Op, input: Input)
    requires |s.worlds| > 0 && s.guard.None? && Begins(op)
    ensures DoneWith(s, Went(AtGuard(s, a, op), a, input, 5), a, op, input)
  {
    if op.Acquire? {
      AcquireDone(s, a, op, input);
    } else if op.Mark? || op.CommitEffective? || op.CommitObservation? {
      RecordDone(s, a, op, input);
    } else {
      hide Blocks, Went, Committed, WithChild;
      Unroll(AtGuard(s, a, op), a, input);
    }
  }

  lemma WorldsStay(s: State, a: nat, input: Input, n: nat, since: nat)
    requires PcOf(s, a).Entered? && PcOf(s, a).since == since
    ensures Went(s, a, input, n).worlds == s.worlds
    ensures var pc := PcOf(Went(s, a, input, n), a);
      (pc.Entered? || pc.Loaded? || pc.Gated?) ==> pc.since == since
  {
    hide ClassifyLock;
  }

  lemma {:induction false} SoloAdvances(s: State, a: nat, input: Input, n: nat, m: nat, since: nat)
    requires PcOf(s, a).Entered? && PcOf(s, a).since == since < |s.worlds|
    requires Describes(input.identity, Now(s), input.who) && Truthful(input.probe, s.worlds[since..])
    ensures Run(Went(s, a, input, m), seq(n, _ => Advance(a, input))) == Went(s, a, input, m + n)
    decreases n
  {
    hide Describes, Truthful, Progress;
    WorldsStay(s, a, input, m, since);
    if n > 0 {
      Advances(Went(s, a, input, m), a, input, n);
      SoloAdvances(s, a, input, n - 1, m + 1, since);
    }
  }

  /** Left alone, an operation's steps finish, free the guard and add up to the whole call. */
  lemma SoloIsWhole(s: State, a: nat, op: Op, input: Input)
    requires Undisturbed(s, a, op, input)
    ensures DoneWith(s, Run(s, Solo(a, op, input)), a, op, input)
  {
    hide Describes, Truthful, Progress, Whole, Refusal, DoneWith;
    var go := Advance(a, input);
    var waiting := Step(s, Begin(a, op));
    var s0 := Step(waiting, Enter(a));
    assert Solo(a, op, input) == [Begin(a, op)] + ([Enter(a)] + seq(5, _ => go));
    RunTwo(s, Begin(a, op), [Enter(a)] + seq(5, _ => go));
    RunTwo(waiting, Enter(a), seq(5, _ => go));
    assert s0 == AtGuard(s, a, op);
    SoloAdvances(s0, a, input, 5, 0, |s.worlds| - 1);
    ProgressDone(s, a, op, input);
  }

  // ---- the store's methods -----------------------------------------------------

  class SessionDir {
    var disk: Disk
    var nextToken: nat

    constructor (record: Record)
      ensures disk == Disk(record.(quarantine := None), None, None) && nextToken == 0
    {
      disk := Disk(record.(quarantine := None), None, None);
      nextToken := 0;
    }

    method WriteQuarantinePending(ev: Evidence)
      modifies this
      ensures disk == old(disk).(fence := Some(ev)) && nextToken == old(nextToken)
    {
      disk := disk.(fence := Some(ev));
    }

    method MarkQuarantined(ev: Evidence, ghost input: Input) returns (record: Record)
      modifies this
      ensures disk == Whole(old(disk), old(nextToken), Mark(ev), input) && nextToken == old(nextToken)
      ensures record == disk.record && record.quarantine.Some? && disk.fence.None? && disk.lock == old(disk.lock)
      ensures old(disk).record.quarantine.Some? ==> record == old(disk).record
    {
      record := disk.record;
      if record.quarantine.None? {
        record := record.(quarantine := Some(ev), updatedAt := ev.recordedAt);
        disk := disk.(record := record);
      }
      disk := disk.(fence := None);
    }

    method Commit(op: Op, ghost input: Input) returns (r: Result<Record, Failure>)
      requires op.CommitEffective? || op.CommitObservation?
      modifies this
      ensures disk == Whole(old(disk), old(nextToken), op, input) && nextToken == old(nextToken)
      ensures r.Err? <==> old(disk).record.quarantine.Some?
      ensures r.Err? ==> disk == old(disk)
      ensures disk.record.quarantine == old(disk).record.quarantine
    {
      var loaded := disk.record;
      if loaded.quarantine.Some? {
        return Err(Quarantined);
      }
      disk := disk.(record := Committed(op, loaded));
      return Ok(disk.record);
    }

    method AcquireLock(op: Op, input: Input) returns (r: Result<nat, Failure>)
      requires op.Acquire?
      modifies this
      ensures disk == Whole(old(disk), old(nextToken), op, input)
      ensures r == if Refusal(old(disk), op, input).Some? then Err(Refusal(old(disk), op, input).value)
          else Ok(old(nextToken))
      ensures r.Ok? ==> disk.lock.Some? && disk.lock.value.token == r.value && nextToken == r.value + 1
      ensures r.Ok? && op.refuse ==> Clean(old(disk))
      ensures r.Err? ==> disk == old(disk) && nextToken == old(nextToken)
    {
      if op.lease <= 0 {
        return Err(BadLease);
      }
      if op.refuse {
        if disk.record.quarantine.Some? {
          return Err(Quarantined);
        }
        if disk.fence.Some? {
          return Err(Quarantined);
        }
      }
      if disk.lock.Some? {
        if Blocks(disk.lock.value, op, input) {
          return Err(Locked);
        }
        disk := disk.(lock := None);
      }
      disk := disk.(lock := Some(Minted(op, nextToken, input.moment, input)));
      nextToken := nextToken + 1;
      return Ok(nextToken - 1);
    }

    method UpdateLockHolder(op: Op, input: Input) returns (r: Option<Failure>)
      requires op.UpdateHolder?
      modifies this
      ensures disk == Whole(old(disk), old(nextToken), op, input) && nextToken == old(nextToken)
      ensures r == Refusal(old(disk), op, input)
    {
      if disk.lock.None? {
        return Some(NoLock);
      }
      if disk.lock.value.token != op.token {
        return Some(WrongToken);
      }
      disk := disk.(lock := Some(WithChild(disk.lock.value, op, input)));
      return None;
    }

    method ReleaseLock(token: nat, ghost input: Input) returns (r: Option<Failure>)
      modifies this
      ensures disk == Whole(old(disk), old(nextToken), Release(token), input) && nextToken == old(nextToken)
      ensures r.None? <==> old(disk).lock.Some? && old(disk).lock.value.token == token
      ensures r.Some? ==> disk == old(disk)
    {
      if disk.lock.None? {
        return Some(NoLock);
      }
      if disk.lock.value.token != token {
        return Some(WrongToken);
      }
      disk := disk.(lock := None);
      return None;
    }
  }
}
