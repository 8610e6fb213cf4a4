/** The bounded Run registry: reserve, register, release, close; capacity and one occupant per Session. */
module Registry {
  import opened Wrappers

  /** Entries by Run and reservations by token, each with its Session; the empty name is no Session. */
  datatype Table = Table(max: nat, entries: map<string, string>, reservations: map<nat, string>, open: bool, next: nat)

  datatype Refusal = ShuttingDown | CapacityExhausted | SessionBusy | NoReservation | AlreadyRegistered

  function Occupied(t: Table): nat {
    |t.entries| + |t.reservations|
  }

  predicate Held(t: Table, session: string) {
    && session != ""
    && ((exists r :: r in t.entries && t.entries[r] == session)
        || (exists k :: k in t.reservations && t.reservations[k] == session))
  }

  function Reserve(t: Table, session: string): Result<Table, Refusal> {
    if !t.open then Err(ShuttingDown)
    else if Occupied(t) >= t.max then Err(CapacityExhausted)
    else if Held(t, session) then Err(SessionBusy)
    else Ok(t.(reservations := t.reservations[t.next := session], next := t.next + 1))
  }

  function Release(t: Table, token: nat): Table {
    t.(reservations := t.reservations - {token})
  }

  /** The Session is the caller's to name again; nothing compares it with the reserved one. */
  function Register(t: Table, run: string, token: nat, session: string): Result<Table, Refusal> {
    if !t.open then Err(ShuttingDown)
    else if token !in t.reservations then Err(NoReservation)
    else if run in t.entries then Err(AlreadyRegistered)
    else Ok(t.(entries := t.entries[run := session], reservations := t.reservations - {token}))
  }

  function CloseAdmission(t: Table): Table {
    t.(open := false, reservations := map[])
  }

  /** A Run task ends and takes its entry with it. */
  function Pop(t: Table, run: string): Table {
    t.(entries := t.entries - {run})
  }

  function ClearReservations(t: Table): Table {
    t.(reservations := map[])
  }

  // ---- invariants ------------------------------------------------------------------

  /** Nobody shares a Session, be they entries or reservations. */
  ghost predicate Exclusive(t: Table) {
    && (forall r, q :: r in t.entries && q in t.entries && r != q && t.entries[r] == t.entries[q] ==>
          t.entries[r] == "")
    && (forall k, j :: k in t.reservations && j in t.reservations && k != j && t.reservations[k] == t.reservations[j]
          ==> t.reservations[k] == "")
    && (forall r, k :: r in t.entries && k in t.reservations && t.entries[r] == t.reservations[k] ==>
          t.entries[r] == "")
  }

  ghost predicate Valid(t: Table) {
    && Occupied(t) <= t.max
    && Exclusive(t)
    && (forall k :: k in t.reservations ==> k < t.next)
    && (!t.open ==> t.reservations == map[])
  }

  function New(max: nat): Table {
    Table(max, map[], map[], true, 0)
  }

  lemma RemoveCount<K, V>(m: map<K, V>, k: K)
    ensures |m - {k}| == if k in m then |m| - 1 else |m|
  {
    assert (m - {k}).Keys == m.Keys - {k};
    assert |m| == |m.Keys| && |m - {k}| == |(m - {k}).Keys|;
  }

  lemma ReserveValid(t: Table, session: string)
    requires Valid(t) && Reserve(t, session).Ok?
    ensures Valid(Reserve(t, session).value)
  {
  }

  lemma ReleaseValid(t: Table, token: nat)
    requires Valid(t)
    ensures Valid(Release(t, token))
  {
    RemoveCount(t.reservations, token);
  }

  lemma PopValid(t: Table, run: string)
    requires Valid(t)
    ensures Valid(Pop(t, run))
  {
    RemoveCount(t.entries, run);
  }

  /** Someone other than the holder of the token has the Session. */
  ghost predicate HeldByAnother(t: Table, token: nat, session: string) {
    && session != ""
    && ((exists r :: r in t.entries && t.entries[r] == session)
        || (exists k :: k in t.reservations && k != token && t.reservations[k] == session))
  }

  lemma RegisterKeeps(t: Table, run: string, token: nat, session: string)
    requires Valid(t) && Register(t, run, token, session).Ok? && !HeldByAnother(t, token, session)
    ensures Valid(Register(t, run, token, session).value)
  {
    RemoveCount(t.reservations, token);
  }

  lemma RegisterShares(t: Table, run: string, token: nat, session: string)
    requires Register(t, run, token, session).Ok? && HeldByAnother(t, token, session)
    ensures !Exclusive(Register(t, run, token, session).value)
  {
    var t' := Register(t, run, token, session).value;
    if r :| r in t.entries && t.entries[r] == session {
      assert t'.entries[r] == t'.entries[run];
    } else {
      var k :| k in t.reservations && k != token && t.reservations[k] == session;
      assert t'.reservations[k] == t'.entries[run];
    }
  }

  /** Registration keeps everything exactly when the Session it names is nobody else's. */
  lemma RegisterValidIff(t: Table, run: string, token: nat, session: string)
    requires Valid(t) && Register(t, run, token, session).Ok?
    ensures Valid(Register(t, run, token, session).value) <==> !HeldByAnother(t, token, session)
  {
    hide Exclusive, HeldByAnother, Register;
    if HeldByAnother(t, token, session) {
      RegisterShares(t, run, token, session);
    } else {
      RegisterKeeps(t, run, token, session);
    }
  }

  /** Naming the Session that was reserved is always such a naming. */
  lemma RegisterAsReserved(t: Table, run: string, token: nat)
    requires Valid(t) && token in t.reservations && Register(t, run, token, t.reservations[token]).Ok?
    ensures Valid(Register(t, run, token, t.reservations[token]).value)
  {
    RegisterValidIff(t, run, token, t.reservations[token]);
  }

  /** A fresh registry of two after: reserve `s1`, register `r1` under it, reserve `s2`. */
  function TwoReserved(r1: string, s1: string, s2: string): Table {
    Table(2, map[r1 := s1], map[1 := s2], true, 2)
  }

  lemma TwoReservedReached(r1: string, s1: string, s2: string)
    requires s1 != s2
    ensures Reserve(New(2), s1) == Ok(Table(2, map[], map[0 := s1], true, 1))
    ensures Register(Table(2, map[], map[0 := s1], true, 1), r1, 0, s1) == Ok(Table(2, map[r1 := s1], map[], true, 1))
    ensures Reserve(Table(2, map[r1 := s1], map[], true, 1), s2) == Ok(TwoReserved(r1, s1, s2))
  {
    var none: map<nat, string> := map[];
    assert map[0 := s1] - {0} == none;
  }

  /**
   * Naming another Session than the reserved one is not such a naming. In a fresh registry of two: reserve s1, register
   * r1 under it, reserve s2, and register r2 naming s1. Every call succeeds, and two Runs are in one Session.
   */
  lemma RegisterElsewhereBreaks(r1: string, r2: string, s1: string, s2: string)
    requires r1 != r2 && s1 != s2 && s1 != ""
    ensures Reserve(New(2), s1) == Ok(Table(2, map[], map[0 := s1], true, 1))
    ensures Register(Table(2, map[], map[0 := s1], true, 1), r1, 0, s1) == Ok(Table(2, map[r1 := s1], map[], true, 1))
    ensures Reserve(Table(2, map[r1 := s1], map[], true, 1), s2) == Ok(TwoReserved(r1, s1, s2))
    ensures Valid(TwoReserved(r1, s1, s2)) && Register(TwoReserved(r1, s1, s2), r2, 1, s1).Ok?
    ensures !Valid(Register(TwoReserved(r1, s1, s2), r2, 1, s1).value)
  {
    TwoReservedReached(r1, s1, s2);
    var t := TwoReserved(r1, s1, s2);
    assert t.entries[r1] == s1;
    RegisterValidIff(t, r2, 1, s1);
  }

  // ---- runs ------------------------------------------------------------------------

  datatype Action =
    | DoReserve(session: string)
    | DoRegister(run: string, token: nat)
    | DoRelease(token: nat)
    | DoPop(run: string)
    | DoClose
    | DoClear

  /** What the daemon does with its registry, in whatever order; a handler registers under the Session it reserved. */
  function Step(t: Table, action: Action): Table {
    match action
    case DoReserve(session) => if Reserve(t, session).Ok? then Reserve(t, session).value else t
    case DoRegister(run, token) =>
      if token in t.reservations && Register(t, run, token, t.reservations[token]).Ok? then
        Register(t, run, token, t.reservations[token]).value
      else t
    case DoRelease(token) => Release(t, token)
    case DoPop(run) => Pop(t, run)
    case DoClose => CloseAdmission(t)
    case DoClear => ClearReservations(t)
  }

  function Run(t: Table, actions: seq<Action>): Table
    decreases |actions|
  {
    if actions == [] then t else Run(Step(t, actions[0]), actions[1..])
  }

  lemma StepValid(t: Table, action: Action)
    requires Valid(t)
    ensures Valid(Step(t, action))
    ensures !t.open ==> !Step(t, action).open && (forall r :: r in Step(t, action).entries ==> r in t.entries)
  {
    match action
    case DoReserve(session) =>
      if Reserve(t, session).Ok? {
        ReserveValid(t, session);
      }
    case DoRegister(run, token) =>
      if token in t.reservations && Register(t, run, token, t.reservations[token]).Ok? {
        RegisterAsReserved(t, run, token);
      }
    case DoRelease(token) => ReleaseValid(t, token);
    case DoPop(run) => PopValid(t, run);
    case _ =>
  }

  /** Over every run: capacity and exclusivity hold, and once admission is closed nothing is ever registered. */
  lemma {:induction false} RegistryHolds(t: Table, actions: seq<Action>)
    requires Valid(t)
    ensures Valid(Run(t, actions))
    ensures !t.open ==> !Run(t, actions).open && (forall r :: r in Run(t, actions).entries ==> r in t.entries)
    decreases |actions|
  {
    if actions != [] {
      StepValid(t, actions[0]);
      RegistryHolds(Step(t, actions[0]), actions[1..]);
    }
  }
}
