/** The registry object, whose methods change its fields under the registry lock. */
module RunRegistry {
  import opened Wrappers
  import R = Registry

  class RunRegistry {
    const max: nat
    var entries: map<string, string>
    var reservations: map<nat, string>
    var open: bool
    var next: nat

    ghost function Contents(): R.Table
      reads this
    {
      R.Table(max, entries, reservations, open, next)
    }

    constructor (max: nat)
      ensures Contents() == R.New(max) && R.Valid(Contents())
    {
      this.max := max;
      entries, reservations, open, next := map[], map[], true, 0;
    }

    method CloseAdmission()
      requires R.Valid(Contents())
      modifies this
      ensures Contents() == R.CloseAdmission(old(Contents())) && R.Valid(Contents())
    {
      open := false;
      reservations := map[];
    }

    method Reserve(session: string) returns (r: Result<nat, R.Refusal>)
      requires R.Valid(Contents())
      modifies this
      ensures R.Valid(Contents())
      ensures r.Ok? ==> R.Reserve(old(Contents()), session) == Ok(Contents()) && r.value == old(next)
      ensures r.Err? ==> R.Reserve(old(Contents()), session) == Err(r.error) && Contents() == old(Contents())
    {
      if !open {
        return Err(R.ShuttingDown);
      }
      if |entries| + |reservations| >= max {
        return Err(R.CapacityExhausted);
      }
      if session != "" && (session in entries.Values || session in reservations.Values) {
        return Err(R.SessionBusy);
      }
      R.ReserveValid(Contents(), session);
      reservations := reservations[next := session];
      next := next + 1;
      return Ok(next - 1);
    }

    method Release(token: nat)
      requires R.Valid(Contents())
      modifies this
      ensures Contents() == R.Release(old(Contents()), token) && R.Valid(Contents())
    {
      R.ReleaseValid(Contents(), token);
      reservations := reservations - {token};
    }

    method Register(run: string, token: nat, session: string) returns (r: Option<R.Refusal>)
      requires R.Valid(Contents())
      modifies this
      ensures r.None? ==> R.Register(old(Contents()), run, token, session) == Ok(Contents())
      ensures r.None? ==> (R.Valid(Contents()) <==> !R.HeldByAnother(old(Contents()), token, session))
      ensures r.Some? ==> R.Register(old(Contents()), run, token, session) == Err(r.value)
      ensures r.Some? ==> Contents() == old(Contents())
    {
      if !open {
        return Some(R.ShuttingDown);
      }
      if token !in reservations {
        return Some(R.NoReservation);
      }
      if run in entries {
        return Some(R.AlreadyRegistered);
      }
      R.RegisterValidIff(Contents(), run, token, session);
      entries := entries[run := session];
      reservations := reservations - {token};
      return None;
    }

    method Pop(run: string)
      requires R.Valid(Contents())
      modifies this
      ensures Contents() == R.Pop(old(Contents()), run) && R.Valid(Contents())
    {
      R.PopValid(Contents(), run);
      entries := entries - {run};
    }
  }
}
