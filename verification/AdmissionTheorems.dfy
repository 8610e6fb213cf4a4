/** At most one registration per Run and one answer per key, over every interleaving, crash and restart. */
module AdmissionTheorems {
  import opened Wrappers
  import opened Admission

  /** Past the directory's creation, and so its one maker. */
  predicate Owns(task: Task) {
    !task.pc.Resolving? && !task.pc.Reserving? && !task.pc.Preparing?
  }

  /** What a submission written for this request looks like. */
  predicate IsFor(e: Env, sub: Submission, req: Request) {
    && sub.key == req.key && sub.digest == req.digest && sub.session == SessionFor(e, req)
    && (e.budget)(req.digest) <= sub.ceiling
  }

  /** What is on disk for a task at each point past its directory's creation. */
  ghost predicate Placed(e: Env, s: State, task: Task) {
    var r := RunId(e, task.req);
    match task.pc
    case Resolving => true
    case Reserving => (e.budget)(task.req.digest) <= s.ceiling
    case Preparing => (e.budget)(task.req.digest) <= s.ceiling
    case Recording => r in s.dirs && s.dirs[r] == RunDir(None, Absent) && (e.budget)(task.req.digest) <= s.ceiling
    case Building(at) =>
      && r in s.dirs && s.dirs[r].submission.Some? && IsFor(e, s.dirs[r].submission.value, task.req)
      && s.dirs[r].submission.value.acceptedAt == at
    case Registering(at) =>
      && r in s.dirs && s.dirs[r].submission.Some? && IsFor(e, s.dirs[r].submission.value, task.req)
      && s.dirs[r].submission.value.acceptedAt == at
    case Failing => r in s.dirs
  }

  ghost predicate OneOwner(e: Env, s: State) {
    forall t, u :: t in s.tasks && u in s.tasks && t != u && Owns(s.tasks[t]) && Owns(s.tasks[u])
      ==> RunId(e, s.tasks[t].req) != RunId(e, s.tasks[u].req)
  }

  /** A Run that was ever registered, or is, has a submission and no task that could register it again. */
  ghost predicate Spent(e: Env, s: State) {
    && (forall r :: r in s.entries ==> r in s.registrations)
    && (forall r :: r in s.registrations ==> r in s.dirs && s.dirs[r].submission.Some?)
    && (forall t, r :: t in s.tasks && Owns(s.tasks[t]) && r in s.registrations ==> RunId(e, s.tasks[t].req) != r)
    && (forall i, j :: 0 <= i < j < |s.registrations| ==> s.registrations[i] != s.registrations[j])
  }

  ghost predicate Matches(e: Env, s: State, a: Ack) {
    && a.run == (e.runOf)(a.key)
    && a.run in s.dirs && s.dirs[a.run].submission.Some?
    && var sub := s.dirs[a.run].submission.value;
    && sub.key == a.key && sub.digest == a.digest && sub.session == a.session && sub.acceptedAt == a.acceptedAt
    && (e.budget)(a.digest) <= sub.ceiling
  }

  ghost predicate Inv(e: Env, s: State) {
    && (forall t :: t in s.tasks ==> Placed(e, s, s.tasks[t]))
    && OneOwner(e, s)
    && Spent(e, s)
    && (forall a :: a in s.acks ==> Matches(e, s, a))
    && (!s.up ==> s.tasks == map[] && s.entries == {})
  }

  lemma EmptyInv(e: Env)
    ensures Inv(e, Empty)
  {
  }

  /** Directories only gain: none goes, no submission changes, no terminal changes once there. */
  ghost predicate Grows(s: State, s': State) {
    && (forall r :: r in s.dirs ==> r in s'.dirs)
    && (forall r :: r in s.dirs && s.dirs[r].submission.Some? ==> s'.dirs[r].submission == s.dirs[r].submission)
    && (forall r :: r in s.dirs && s.dirs[r].terminal != Absent ==> s'.dirs[r].terminal == s.dirs[r].terminal)
  }

  lemma AdvanceGrows(e: Env, s: State, t: nat, ok: bool, at: string)
    requires t in s.tasks
    ensures Grows(s, Advance(e, s, t, ok, at))
  {
    hide Resolve, SessionFor;
  }

  lemma StepGrows(e: Env, s: State, action: Action)
    ensures Grows(s, Step(e, s, action))
  {
    hide Advance, Listens;
    if action.Next? && action.t in s.tasks {
      AdvanceGrows(e, s, action.t, action.ok, action.at);
    }
  }

  lemma AcksStand(e: Env, s: State, s': State)
    requires Inv(e, s) && Grows(s, s')
    ensures forall a :: a in s.acks ==> Matches(e, s', a)
  {
  }

  /** A step that adds nobody and writes at most a terminal. */
  lemma QuietInv(e: Env, s: State, s': State)
    requires Inv(e, s) && Grows(s, s') && s'.registrations == s.registrations && s'.acks == s.acks
    requires s'.entries <= s.entries && s'.dirs.Keys == s.dirs.Keys && s'.ceiling == s.ceiling
    requires forall t :: t in s'.tasks ==> t in s.tasks && s'.tasks[t] == s.tasks[t]
    requires forall r :: r in s.dirs ==> s'.dirs[r].submission == s.dirs[r].submission
    requires forall t :: t in s'.tasks && s'.tasks[t].pc.Recording? ==>
      var r := RunId(e, s.tasks[t].req); r in s.dirs && s'.dirs[r] == s.dirs[r]
    requires !s'.up ==> s'.tasks == map[] && s'.entries == {}
    ensures Inv(e, s')
  {
    AcksStand(e, s, s');
    forall t | t in s'.tasks
      ensures Placed(e, s', s'.tasks[t])
    {
      assert Placed(e, s, s.tasks[t]);
    }
    assert forall r :: r in s.dirs <==> r in s'.dirs.Keys;
  }

  /** A step of one task that leaves the disk alone and makes it no owner. */
  lemma TaskInv(e: Env, s: State, s': State, t: nat)
    requires Inv(e, s) && t in s.tasks && s'.dirs == s.dirs && s'.entries == s.entries
        && s'.registrations == s.registrations
    requires s'.ceiling == s.ceiling && s'.up == s.up
    requires forall u :: u in s'.tasks ==> u in s.tasks && (u != t ==> s'.tasks[u] == s.tasks[u])
    requires t in s'.tasks ==> Placed(e, s', s'.tasks[t]) && s'.tasks[t].req == s.tasks[t].req
    requires t in s'.tasks && Owns(s'.tasks[t]) ==> Owns(s.tasks[t])
    requires forall a :: a in s'.acks ==> a in s.acks || Matches(e, s, a)
    ensures Inv(e, s')
  {
    AcksStand(e, s, s');
    forall u | u in s'.tasks
      ensures Placed(e, s', s'.tasks[u])
    {
      assert Placed(e, s, s.tasks[u]);
    }
  }

  lemma ResolvedMatches(e: Env, s: State, req: Request)
    requires Resolve(e, s, req).Accepted?
    ensures Matches(e, s, Resolve(e, s, req).ack)
  {
  }

  lemma ResolveInv(e: Env, s: State, t: nat, ok: bool, at: string)
    requires Inv(e, s) && t in s.tasks && s.tasks[t].pc.Resolving?
    ensures Inv(e, Advance(e, s, t, ok, at))
  {
    hide Resolve, Matches, Inv;
    var req := s.tasks[t].req;
    if Resolve(e, s, req).Accepted? {
      ResolvedMatches(e, s, req);
    }
    TaskInv(e, s, Advance(e, s, t, ok, at), t);
  }

  lemma ReserveInv(e: Env, s: State, t: nat, ok: bool, at: string)
    requires Inv(e, s) && t in s.tasks && s.tasks[t].pc.Reserving?
    ensures Inv(e, Advance(e, s, t, ok, at))
  {
    assert Placed(e, s, s.tasks[t]);
    TaskInv(e, s, Advance(e, s, t, ok, at), t);
  }

  /** The exclusive create makes its maker the only owner: any other would already have a directory there. */
  lemma PrepareInv(e: Env, s: State, t: nat, ok: bool, at: string)
    requires Inv(e, s) && t in s.tasks && s.tasks[t].pc.Preparing?
    ensures Inv(e, Advance(e, s, t, ok, at))
  {
    var s' := Advance(e, s, t, ok, at);
    AdvanceGrows(e, s, t, ok, at);
    AcksStand(e, s, s');
    forall u | u in s'.tasks
      ensures Placed(e, s', s'.tasks[u])
    {
      assert Placed(e, s, s.tasks[u]);
    }
  }

  lemma RecordInv(e: Env, s: State, t: nat, ok: bool, at: string)
    requires Inv(e, s) && t in s.tasks && s.tasks[t].pc.Recording?
    ensures Inv(e, Advance(e, s, t, ok, at))
  {
    var s' := Advance(e, s, t, ok, at);
    AdvanceGrows(e, s, t, ok, at);
    AcksStand(e, s, s');
    assert Placed(e, s, s.tasks[t]);
    forall u | u in s'.tasks
      ensures Placed(e, s', s'.tasks[u])
    {
      assert Placed(e, s, s.tasks[u]);
    }
  }

  lemma BuildInv(e: Env, s: State, t: nat, ok: bool, at: string)
    requires Inv(e, s) && t in s.tasks && s.tasks[t].pc.Building?
    ensures Inv(e, Advance(e, s, t, ok, at))
  {
    assert Placed(e, s, s.tasks[t]);
    TaskInv(e, s, Advance(e, s, t, ok, at), t);
  }

  lemma RegisterInv(e: Env, s: State, t: nat, ok: bool, at: string)
    requires Inv(e, s) && t in s.tasks && s.tasks[t].pc.Registering?
    ensures Inv(e, Advance(e, s, t, ok, at))
  {
    var s' := Advance(e, s, t, ok, at);
    var r := RunId(e, s.tasks[t].req);
    assert Placed(e, s, s.tasks[t]) && Owns(s.tasks[t]);
    if t in s'.tasks {
      TaskInv(e, s, s', t);
    } else {
      AcksStand(e, s, s');
      assert r !in s.registrations;
      forall u | u in s'.tasks
        ensures Placed(e, s', s'.tasks[u])
      {
        assert Placed(e, s, s.tasks[u]);
      }
      forall i, j | 0 <= i < j < |s'.registrations|
        ensures s'.registrations[i] != s'.registrations[j]
      {
        assert s.registrations[i] in s.registrations;
      }
    }
  }

  lemma FailInv(e: Env, s: State, t: nat, ok: bool, at: string)
    requires Inv(e, s) && t in s.tasks && s.tasks[t].pc.Failing?
    ensures Inv(e, Advance(e, s, t, ok, at))
  {
    AdvanceGrows(e, s, t, ok, at);
    assert Owns(s.tasks[t]);
    QuietInv(e, s, Advance(e, s, t, ok, at));
  }

  lemma TaskWritesInv(e: Env, s: State, r: string, terminal: Terminal)
    requires Inv(e, s)
    ensures Inv(e, Step(e, s, TaskWrites(r, terminal)))
  {
    var s' := Step(e, s, TaskWrites(r, terminal));
    StepGrows(e, s, TaskWrites(r, terminal));
    forall t | t in s'.tasks && s'.tasks[t].pc.Recording?
      ensures var q := RunId(e, s.tasks[t].req); q in s.dirs && s'.dirs[q] == s.dirs[q]
    {
      assert Placed(e, s, s.tasks[t]) && Owns(s.tasks[t]);
    }
    QuietInv(e, s, s');
  }

  lemma RestartInv(e: Env, s: State, ceiling: nat, st: Startup)
    requires Inv(e, s)
    ensures Inv(e, Step(e, s, Restart(ceiling, st)))
  {
    StepGrows(e, s, Restart(ceiling, st));
    AcksStand(e, s, Step(e, s, Restart(ceiling, st)));
  }

  lemma StepInv(e: Env, s: State, action: Action)
    requires Inv(e, s)
    ensures Inv(e, Step(e, s, action))
  {
    hide Inv, Advance, Reconciled, Listens;
    match action
    case Next(t, ok, at) =>
      if t in s.tasks {
        match s.tasks[t].pc
        case Resolving => ResolveInv(e, s, t, ok, at);
        case Reserving => ReserveInv(e, s, t, ok, at);
        case Preparing => PrepareInv(e, s, t, ok, at);
        case Recording => RecordInv(e, s, t, ok, at);
        case Building(_) => BuildInv(e, s, t, ok, at);
        case Registering(_) => RegisterInv(e, s, t, ok, at);
        case Failing => FailInv(e, s, t, ok, at);
      }
    case TaskWrites(r, terminal) => TaskWritesInv(e, s, r, terminal);
    case Restart(ceiling, st) => RestartInv(e, s, ceiling, st);
    case Submit(t, req) => SubmitInv(e, s, t, req);
    case _ => LeaveInv(e, s, action);
  }

  lemma SubmitInv(e: Env, s: State, t: nat, req: Request)
    requires Inv(e, s)
    ensures Inv(e, Step(e, s, Submit(t, req)))
  {
    var s' := Step(e, s, Submit(t, req));
    forall u | u in s'.tasks
      ensures Placed(e, s', s'.tasks[u])
    {
      if u in s.tasks {
        assert Placed(e, s, s.tasks[u]);
      }
    }
  }

  lemma LeaveInv(e: Env, s: State, action: Action)
    requires Inv(e, s) && (action.Drop? || action.TaskEnds? || action.Crash?)
    ensures Inv(e, Step(e, s, action))
  {
    forall t | t in s.tasks && s.tasks[t].pc.Recording?
      ensures RunId(e, s.tasks[t].req) in s.dirs
    {
      assert Placed(e, s, s.tasks[t]);
    }
    QuietInv(e, s, Step(e, s, action));
  }

  lemma {:induction false} RunInv(e: Env, s: State, actions: seq<Action>)
    requires Inv(e, s)
    ensures Inv(e, Run(e, s, actions))
    decreases |actions|
  {
    if actions != [] {
      StepInv(e, s, actions[0]);
      RunInv(e, Step(e, s, actions[0]), actions[1..]);
    }
  }

  // ---- theorems --------------------------------------------------------------------

  /** No Run is ever registered twice, in this daemon or across any number of restarts. */
  lemma RegisteredAtMostOnce(e: Env, actions: seq<Action>, i: nat, j: nat)
    requires var s := Run(e, Empty, actions); i < j < |s.registrations|
    ensures var s := Run(e, Empty, actions); s.registrations[i] != s.registrations[j]
  {
    EmptyInv(e);
    RunInv(e, Empty, actions);
  }

  /** Everyone ever acknowledged under one key was told the same, and had sent the same request. */
  lemma AcksAgree(e: Env, actions: seq<Action>, a: Ack, b: Ack)
    requires var s := Run(e, Empty, actions); a in s.acks && b in s.acks && a.key == b.key
    ensures a == b
  {
    EmptyInv(e);
    RunInv(e, Empty, actions);
    assert Matches(e, Run(e, Empty, actions), a) && Matches(e, Run(e, Empty, actions), b);
  }

  /** A request other than the one acknowledged under its key is answered with a conflict, at any later time. */
  lemma OtherDigestConflicts(e: Env, actions: seq<Action>, a: Ack, req: Request)
    requires var s := Run(e, Empty, actions); a in s.acks && a.key == req.key && a.digest != req.digest
    ensures Resolve(e, Run(e, Empty, actions), req) == Conflict
  {
    EmptyInv(e);
    RunInv(e, Empty, actions);
    assert Matches(e, Run(e, Empty, actions), a);
  }

  /**
   * The acknowledged request, sent again, gets the same acknowledgement exactly when its Run is live or properly
   * ended.
   */
  lemma SameRequestIsAnsweredIff(e: Env, actions: seq<Action>, a: Ack, req: Request)
    requires var s := Run(e, Empty, actions); a in s.acks && a.key == req.key && a.digest == req.digest
    ensures var s := Run(e, Empty, actions);
      && a.run in s.dirs
      && var dir := s.dirs[a.run];
      && (Resolve(e, s, req) == Accepted(a)
          <==> dir.terminal == Trusted || (a.run in s.entries && dir.terminal == Absent))
      && (Resolve(e, s, req) == Indeterminate <==> a.run !in s.entries && dir.terminal == Absent)
      && (Resolve(e, s, req) == Untrusted <==> dir.terminal == Invalid)
  {
    EmptyInv(e);
    RunInv(e, Empty, actions);
    assert Matches(e, Run(e, Empty, actions), a);
  }

  /** With a trusted terminal it stays answered so, whatever happens after. */
  lemma {:induction false} OnceTrustedAlwaysAnswered(e: Env, s: State, actions: seq<Action>, a: Ack, req: Request)
    requires Inv(e, s) && a in s.acks && a.key == req.key && a.digest == req.digest
    requires a.run in s.dirs && s.dirs[a.run].terminal == Trusted
    ensures Resolve(e, Run(e, s, actions), req) == Accepted(a)
    decreases |actions|
  {
    assert Matches(e, s, a);
    if actions != [] {
      StepInv(e, s, actions[0]);
      StepGrows(e, s, actions[0]);
      AcksKept(e, s, actions[0]);
      OnceTrustedAlwaysAnswered(e, Step(e, s, actions[0]), actions[1..], a, req);
    }
  }

  lemma AcksKept(e: Env, s: State, action: Action)
    ensures forall a :: a in s.acks ==> a in Step(e, s, action).acks
  {
  }
}
