/**
 * One Session directory: `session.json`, the quarantine fence and `lock.json`, changed by any number of callers that
 * serialise on the per-session guard, may stop for good after any single write, and share hosts that keep moving.
 */
module Sessions {
  import opened Wrappers
  import opened Liveness

  datatype Evidence = Evidence(reason: string, runId: string, recordedAt: string)

  datatype Observation = Observation(name: string, version: string, capabilities: seq<string>)

  datatype Record = Record(quarantine: Option<Evidence>, effective: Option<(string, string)>,
                           observed: Option<Observation>, updatedAt: string)

  /** `who` and `childWho` are the processes the identities were taken from; no operation reads them. */
  datatype Lock = Lock(token: nat, owner: string, expires: int, reclaimable: bool,
                       holder: Identity, who: nat, child: Option<Identity>, childWho: nat)

  datatype Disk = Disk(record: Record, fence: Option<Evidence>, lock: Option<Lock>)

  datatype Op =
    | WriteFence(ev: Evidence)
    | Mark(ev: Evidence)
    | CommitEffective(model: string, effort: string, at: string)
    | CommitObservation(observation: Observation, at: string)
    | Acquire(refuse: bool, owner: string, lease: int, reclaim: bool, reclaimable: bool)
    | UpdateHolder(token: nat, reclaimableNow: bool)
    | Release(token: nat)

  /**
   * Where a caller stands. From `Entered` to `Leaving` it holds the guard. `since` is the moment it entered;
   * `loaded` is its own copy of the record.
   */
  datatype Pc =
    | Idle
    | Waiting(op: Op)
    | Entered(op: Op, since: nat)
    | Loaded(op: Op, since: nat, loaded: Record)
    | Evidenced
    | Gated(op: Op, since: nat)
    | Unlocked(op: Op, moment: int)
    | Leaving

  datatype Grant = Grant(token: nat, refusing: bool)

  datatype State = State(disk: Disk, guard: Option<nat>, pcs: map<nat, Pc>, worlds: seq<World>,
                         nextToken: nat, grants: seq<Grant>)

  /** What the outside supplies to one step: the time, the probe's signals, and a process with its identity. */
  datatype Input = Input(moment: int, probe: Probe, identity: Identity, who: nat)

  datatype Action =
    | Begin(a: nat, op: Op)
    | Enter(a: nat)
    | Advance(a: nat, input: Input)
    | Die(a: nat)
    | Host(step: HostStep)

  function PcOf(s: State, a: nat): Pc {
    if a in s.pcs then s.pcs[a] else Idle
  }

  predicate Inside(pc: Pc) {
    !pc.Idle? && !pc.Waiting?
  }

  function Now(s: State): World
    requires |s.worlds| > 0
  {
    s.worlds[|s.worlds| - 1]
  }

  function Goto(s: State, a: nat, pc: Pc): State {
    s.(pcs := s.pcs[a := pc])
  }

  /** A lock may be displaced by liveness only if it is reclaimable and its whole holder set is judged crashed. */
  predicate HolderCrashed(l: Lock, p: Probe) {
    l.reclaimable && ClassifyLock(l.holder, l.child, p) == Crashed
  }

  /** `moment < expires` blocks, unless reclaim was asked for and the holder set is judged crashed. */
  predicate Blocks(l: Lock, op: Op, input: Input)
    requires op.Acquire?
  {
    input.moment < l.expires && !(op.reclaim && HolderCrashed(l, input.probe))
  }

  function Minted(op: Op, token: nat, moment: int, input: Input): Lock
    requires op.Acquire?
  {
    Lock(token, op.owner, moment + op.lease, op.reclaimable, input.identity, input.who, None, 0)
  }

  function WithChild(l: Lock, op: Op, input: Input): Lock
    requires op.UpdateHolder?
  {
    l.(reclaimable := op.reclaimableNow, child := Some(input.identity), childWho := input.who)
  }

  /** The record a commit writes, made from the caller's own copy. */
  function Committed(op: Op, loaded: Record): Record {
    match op
    case CommitEffective(model, effort, at) => loaded.(effective := Some((model, effort)), updatedAt := at)
    case CommitObservation(observation, at) => loaded.(observed := Some(observation), updatedAt := at)
    case _ => loaded
  }

  /** First step under the guard. */
  function AfterEntry(s: State, a: nat, op: Op, since: nat, input: Input): State {
    match op
    case WriteFence(ev) => Goto(s.(disk := s.disk.(fence := Some(ev))), a, Leaving)
    case Mark(_) => Goto(s, a, Loaded(op, since, s.disk.record))
    case CommitEffective(_, _, _) => Goto(s, a, Loaded(op, since, s.disk.record))
    case CommitObservation(_, _) => Goto(s, a, Loaded(op, since, s.disk.record))
    case Acquire(refuse, _, _, _, _) =>
      if refuse then Goto(s, a, Loaded(op, since, s.disk.record)) else Goto(s, a, Gated(op, since))
    case UpdateHolder(token, _) =>
      if s.disk.lock.Some? && s.disk.lock.value.token == token then
        Goto(s.(disk := s.disk.(lock := Some(WithChild(s.disk.lock.value, op, input)))), a, Leaving)
      else Goto(s, a, Leaving)
    case Release(token) =>
      if s.disk.lock.Some? && s.disk.lock.value.token == token then
        Goto(s.(disk := s.disk.(lock := None)), a, Leaving)
      else Goto(s, a, Leaving)
  }

  /** After the record was read. */
  function AfterLoad(s: State, a: nat, op: Op, since: nat, loaded: Record): State {
    if op.Mark? then
      if loaded.quarantine.Some? then Goto(s, a, Evidenced)
      else Goto(s.(disk := s.disk.(record := loaded.(quarantine := Some(op.ev), updatedAt := op.ev.recordedAt))), a,
          Evidenced)
    else if loaded.quarantine.Some? then Goto(s, a, Leaving)
    else if op.Acquire? then
      if s.disk.fence.Some? then Goto(s, a, Leaving) else Goto(s, a, Gated(op, since))
    else Goto(s.(disk := s.disk.(record := Committed(op, loaded))), a, Leaving)
  }

  function AfterGate(s: State, a: nat, op: Op, input: Input): State
    requires op.Acquire?
  {
    if s.disk.lock.Some? && Blocks(s.disk.lock.value, op, input) then Goto(s, a, Leaving)
    else Goto(s.(disk := s.disk.(lock := None)), a, Unlocked(op, input.moment))
  }

  function AfterUnlock(s: State, a: nat, op: Op, moment: int, input: Input): State
    requires op.Acquire?
  {
    if s.disk.lock.Some? then Goto(s, a, Leaving)
    else
      Goto(s.(disk := s.disk.(lock := Some(Minted(op, s.nextToken, moment, input))),
              nextToken := s.nextToken + 1,
              grants := s.grants + [Grant(s.nextToken, op.refuse)]), a, Leaving)
  }

  function Progress(s: State, a: nat, input: Input): State {
    match PcOf(s, a)
    case Idle => s
    case Waiting(_) => s
    case Entered(op, since) => AfterEntry(s, a, op, since, input)
    case Loaded(op, since, loaded) => AfterLoad(s, a, op, since, loaded)
    case Evidenced => Goto(s.(disk := s.disk.(fence := None)), a, Leaving)
    case Gated(op, _) => if op.Acquire? then AfterGate(s, a, op, input) else s
    case Unlocked(op, moment) => if op.Acquire? then AfterUnlock(s, a, op, moment, input) else s
    case Leaving => Goto(s, a, Idle).(guard := None)
  }

  /** Inputs the hosts can produce: identities name real processes, and probes tell the truth. */
  ghost predicate Possible(s: State, a: nat, input: Input) {
    && |s.worlds| > 0
    && Describes(input.identity, Now(s), input.who)
    && (PcOf(s, a).Gated? && PcOf(s, a).since < |s.worlds| ==> Truthful(input.probe, s.worlds[PcOf(s, a).since..]))
  }

  /** A caller whose operation the code refuses before taking the guard never waits for it. */
  predicate Begins(op: Op) {
    op.Acquire? ==> op.lease > 0
  }

  ghost function Step(s: State, action: Action): State {
    match action
    case Begin(a, op) => if PcOf(s, a).Idle? && Begins(op) then Goto(s, a, Waiting(op)) else s
    case Enter(a) =>
      if PcOf(s, a).Waiting? && s.guard.None? && |s.worlds| > 0 then
        Goto(s, a, Entered(PcOf(s, a).op, |s.worlds| - 1)).(guard := Some(a))
      else s
    case Advance(a, input) => if Possible(s, a, input) then Progress(s, a, input) else s
    case Die(a) => Goto(s, a, Idle).(guard := if s.guard == Some(a) then None else s.guard)
    case Host(step) => if |s.worlds| > 0 then s.(worlds := s.worlds + [StepHost(Now(s), step)]) else s
  }

  ghost function Run(s: State, actions: seq<Action>): State
    decreases |actions|
  {
    if actions == [] then s else Run(Step(s, actions[0]), actions[1..])
  }

  /** A Session just created: no evidence, no fence, no lease. */
  function Created(record: Record, w: World): State {
    State(Disk(record.(quarantine := None), None, None), None, map[], [w], 0, [])
  }
}
