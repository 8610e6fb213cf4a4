/**
 * Durable submission: any number of submit tasks in one daemon, cut between any two of their steps, across crashes
 * and restarts. Run identities come from a function of the key that need not be injective.
 */
module Admission {
  import opened Wrappers

  datatype Key = Key(principal: string, request: string)

  datatype Request = Request(key: Key, digest: string, session: Option<string>)

  /** The durable submission: what was accepted, for whom, and the event budget ceiling that admitted it. */
  datatype Submission = Submission(key: Key, digest: string, session: string, acceptedAt: string, ceiling: nat)

  datatype Terminal = Absent | Trusted | Invalid

  datatype RunDir = RunDir(submission: Option<Submission>, terminal: Terminal)

  /** Names are derived, a request's event budget is a function of what its digest covers. */
  datatype Env = Env(runOf: Key -> string, sessionOf: string -> string, budget: string -> nat)

  datatype Pc = Resolving | Reserving | Preparing | Recording | Building(acceptedAt: string)
      | Registering(acceptedAt: string) | Failing

  datatype Task = Task(req: Request, pc: Pc)

  datatype Ack = Ack(key: Key, digest: string, run: string, session: string, acceptedAt: string)

  /** `registrations` and `acks` record the whole history; the daemon keeps only `entries` and `tasks`. */
  datatype State = State(up: bool, ceiling: nat, dirs: map<string, RunDir>, entries: set<string>, tasks: map<nat, Task>,
                         registrations: seq<string>, acks: seq<Ack>)

  datatype Reply = Accepted(ack: Ack) | Conflict | Indeterminate | Untrusted | NoRun

  const Empty := State(false, 0, map[], {}, map[], [], [])

  function RunId(e: Env, req: Request): string {
    (e.runOf)(req.key)
  }

  function SessionFor(e: Env, req: Request): string {
    if req.session.Some? then req.session.value else (e.sessionOf)(RunId(e, req))
  }

  /** What the directory alone says to a request. */
  function Resolve(e: Env, s: State, req: Request): Reply {
    var r := RunId(e, req);
    if r !in s.dirs then NoRun
    else if s.dirs[r].submission.None? then Indeterminate
    else
      var sub := s.dirs[r].submission.value;
      if sub.key != req.key then Indeterminate
      else if sub.digest != req.digest then Conflict
      else if (e.budget)(req.digest) > sub.ceiling then Indeterminate
      else if s.dirs[r].terminal == Invalid then Untrusted
      else if r in s.entries || s.dirs[r].terminal == Trusted then
        Accepted(Ack(req.key, req.digest, r, sub.session, sub.acceptedAt))
      else Indeterminate
  }

  /**
   * How a startup goes: which directories it reached, whose terminals came out oversize, whether it refused or crashed.
   * `Restart` shows that every reconciliation pass, whole or cut, is one of these.
   */
  datatype Startup = Startup(reached: set<string>, oversize: set<string>, stopped: bool)

  datatype Action =
    | Submit(t: nat, req: Request)
    | Next(t: nat, ok: bool, at: string)
    | Drop(t: nat)
    | TaskWrites(run: string, terminal: Terminal)
    | TaskEnds(run: string)
    | Crash
    | Restart(ceiling: nat, startup: Startup)

  function Goto(s: State, t: nat, pc: Pc): State
    requires t in s.tasks
  {
    s.(tasks := s.tasks[t := s.tasks[t].(pc := pc)])
  }

  function Gone(s: State, t: nat): State {
    s.(tasks := s.tasks - {t})
  }

  /** A Run that could not be registered is finalised as failed; the write may itself fail. */
  function Finalised(s: State, r: string, ok: bool): State {
    if ok && r in s.dirs && s.dirs[r].terminal == Absent then s.(dirs := s.dirs[r := s.dirs[r].(terminal := Trusted)])
        else s
  }

  /** One step of a submit task. `ok` is how the outside answers: room in the registry, a write, the factory. */
  function Advance(e: Env, s: State, t: nat, ok: bool, at: string): State
    requires t in s.tasks
  {
    var req := s.tasks[t].req;
    var r := RunId(e, req);
    match s.tasks[t].pc
    case Resolving =>
      (match Resolve(e, s, req)
       case NoRun => if (e.budget)(req.digest) <= s.ceiling then Goto(s, t, Reserving) else Gone(s, t)
       case Accepted(ack) => Gone(s, t).(acks := s.acks + [ack])
       case _ => Gone(s, t))
    case Reserving => if ok then Goto(s, t, Preparing) else Gone(s, t)
    case Preparing =>
      if ok && r !in s.dirs then Goto(s.(dirs := s.dirs[r := RunDir(None, Absent)]), t, Recording) else Gone(s, t)
    case Recording =>
      if ok && r in s.dirs && s.dirs[r].submission.None? then
        var sub := Submission(req.key, req.digest, SessionFor(e, req), at, s.ceiling);
        Goto(s.(dirs := s.dirs[r := s.dirs[r].(submission := Some(sub))]), t, Building(at))
      else Gone(s, t)
    case Building(acceptedAt) => if ok then Goto(s, t, Registering(acceptedAt)) else Goto(s, t, Failing)
    case Registering(acceptedAt) =>
      if ok && r !in s.entries then
        Gone(s, t).(entries := s.entries + {r}, registrations := s.registrations + [r],
                    acks := s.acks + [Ack(req.key, req.digest, r, SessionFor(e, req), acceptedAt)])
      else Goto(s, t, Failing)
    case Failing => Gone(Finalised(s, r, ok), t)
  }

  /** What startup reconciliation makes of a directory: no terminal becomes one, trusted unless it is oversize. */
  function ReconciledDir(dir: RunDir, r: string, st: Startup): RunDir {
    if dir.terminal == Absent then dir.(terminal := if r in st.oversize then Invalid else Trusted) else dir
  }

  /** Any untrusted terminal on disk makes startup refuse, and so may other documents. */
  predicate Listens(dirs: map<string, RunDir>, st: Startup) {
    !st.stopped && forall r :: r in dirs ==> dirs[r].terminal != Invalid
  }

  /** A startup that listens has reached every directory. */
  function Reconciled(dirs: map<string, RunDir>, st: Startup): map<string, RunDir> {
    map r | r in dirs :: if Listens(dirs, st) || r in st.reached then ReconciledDir(dirs[r], r, st) else dirs[r]
  }

  function Step(e: Env, s: State, action: Action): State {
    match action
    case Submit(t, req) => if s.up && t !in s.tasks then s.(tasks := s.tasks[t := Task(req, Resolving)]) else s
    case Next(t, ok, at) => if t in s.tasks then Advance(e, s, t, ok, at) else s
    case Drop(t) => Gone(s, t)
    case TaskWrites(r, terminal) =>
      if r in s.entries && r in s.dirs && s.dirs[r].terminal == Absent then
        s.(dirs := s.dirs[r := s.dirs[r].(terminal := terminal)])
      else s
    case TaskEnds(r) => s.(entries := s.entries - {r})
    case Crash => s.(up := false, entries := {}, tasks := map[])
    case Restart(ceiling, st) =>
      if s.up then s else s.(up := Listens(s.dirs, st), ceiling := ceiling, dirs := Reconciled(s.dirs, st))
  }

  function Run(e: Env, s: State, actions: seq<Action>): State
    decreases |actions|
  {
    if actions == [] then s else Run(e, Step(e, s, actions[0]), actions[1..])
  }
}
