/** The file store's contracts that the other models rest on: write-all, and create-once that is all or nothing. */
module EventStore {
  import opened Wrappers
  import opened EventLines

  /** What the write calls return, one after another: a failure, or at least one byte and at most what is left. */
  datatype WriteCall = Fails | Writes(n: nat)

  /**
   * The write-all loop over a file opened for appending. Success appends exactly the data; failure appends a proper
   * prefix of it. Nothing already there changes.
   */
  method WriteAll(file0: seq<Byte>, data: seq<Byte>, calls: nat -> WriteCall) returns (file: seq<Byte>, ok: bool)
    ensures ok ==> file == file0 + data
    ensures !ok ==> exists k :: 0 <= k < |data| && file == file0 + data[..k]
  {
    file := file0;
    var offset, i := 0, 0;
    assert file0 + data[..0] == file0;
    while offset < |data|
      invariant 0 <= offset <= |data| && file == file0 + data[..offset]
      decreases |data| - offset
    {
      var call := calls(i);
      if call.Fails? || call.n == 0 {
        return file, false;
      }
      var n := if call.n > |data| - offset then |data| - offset else call.n;
      assert data[..offset] + data[offset..offset + n] == data[..offset + n];
      file := file + data[offset..offset + n];
      offset, i := offset + n, i + 1;
    }
    assert data[..|data|] == data;
    return file, true;
  }

  // ---- create once -----------------------------------------------------------------

  /** A creator: writing its own temporary file, having written it all, having linked it, or finished. */
  datatype Pc = Filling(data: seq<Byte>) | Full(data: seq<Byte>) | Linked(data: seq<Byte>)
      | Finished(ok: bool, data: seq<Byte>)

  /** The published name, the temporary files by creator, and who published. */
  datatype State = State(final: Option<seq<Byte>>, temps: map<nat, seq<Byte>>, pcs: map<nat, Pc>, winner: Option<nat>)

  datatype Action = Begin(c: nat, data: seq<Byte>) | Write(c: nat, n: nat) | Sync(c: nat) | Link(c: nat)
      | Unlink(c: nat) | Die(c: nat)

  const Nothing := State(None, map[], map[], None)

  function Goto(s: State, c: nat, pc: Pc): State {
    s.(pcs := s.pcs[c := pc])
  }

  function Temp(s: State, c: nat): seq<Byte> {
    if c in s.temps then s.temps[c] else []
  }

  function Step(s: State, a: Action): State {
    if a.Begin? then
      if a.c in s.pcs then s else Goto(s.(temps := s.temps[a.c := []]), a.c, Filling(a.data))
    else if a.c !in s.pcs then s
    else
      var pc := s.pcs[a.c];
      match a
      case Write(c, n) =>
        if pc.Filling? && |Temp(s, c)| + n <= |pc.data| then s.(temps := s.temps[c := pc.data[..|Temp(s, c)| + n]])
            else s
      case Sync(c) => if pc.Filling? && |Temp(s, c)| == |pc.data| then Goto(s, c, Full(pc.data)) else s
      case Link(c) =>
        if !pc.Full? then s
        else if s.final.Some? then Goto(s, c, Finished(false, pc.data))
        else Goto(s.(final := Some(Temp(s, c)), winner := Some(c)), c, Linked(pc.data))
      case Unlink(c) => if pc.Linked? then Goto(s.(temps := s.temps - {c}), c, Finished(true, pc.data)) else s
      case _ => Goto(s, a.c, Finished(false, pc.data))
  }

  function Run(s: State, actions: seq<Action>): State
    decreases |actions|
  {
    if actions == [] then s else Run(Step(s, actions[0]), actions[1..])
  }

  /**
   * A temporary file is a prefix of its creator's data, whole once synced; the published bytes are the winner's,
   * whole.
   */
  ghost predicate Inv(s: State) {
    && (forall c :: c in s.pcs && s.pcs[c].Filling? ==> Temp(s, c) <= s.pcs[c].data)
    && (forall c :: c in s.pcs && s.pcs[c].Full? ==> Temp(s, c) == s.pcs[c].data)
    && (forall c :: c in s.pcs && (s.pcs[c].Linked? || (s.pcs[c].Finished? && s.pcs[c].ok)) ==> s.winner == Some(c))
    && (s.final.Some? <==> s.winner.Some?)
    && (s.winner.Some? ==> s.winner.value in s.pcs && s.final == Some(s.pcs[s.winner.value].data))
  }

  lemma StepInv(s: State, a: Action)
    requires Inv(s)
    ensures Inv(Step(s, a))
    ensures s.final.Some? ==> Step(s, a).final == s.final && Step(s, a).winner == s.winner
  {
  }

  /** The creator was told its file is published. */
  predicate Succeeded(s: State, c: nat) {
    c in s.pcs && s.pcs[c].Finished? && s.pcs[c].ok
  }

  /**
   * Over every interleaving of creators and deaths: the name is absent or holds one creator's whole data, once there
   * it never changes, and at most one creator is told it succeeded.
   */
  lemma {:induction false} CreatedWholeAndOnce(s: State, actions: seq<Action>)
    requires Inv(s)
    ensures var s' := Run(s, actions);
      && (s.final.Some? ==> s'.final == s.final)
      && (s'.final.Some? ==> exists c :: c in s'.pcs && s'.final == Some(s'.pcs[c].data))
      && (forall c, d :: Succeeded(s', c) && Succeeded(s', d) ==> c == d)
    decreases |actions|
  {
    hide Step;
    if actions != [] {
      StepInv(s, actions[0]);
      CreatedWholeAndOnce(Step(s, actions[0]), actions[1..]);
    }
  }

  lemma NothingInv()
    ensures Inv(Nothing)
  {
  }

  /** From nothing: at any two moments of any run the name holds the same whole data, if it held any at the first. */
  lemma PublishedFromNothing(before: seq<Action>, after: seq<Action>)
    ensures var s := Run(Nothing, before);
      && (s.final.Some? ==> Run(s, after).final == s.final)
      && (s.final.Some? ==> exists c :: c in s.pcs && s.final == Some(s.pcs[c].data))
  {
    hide Run, Inv;
    NothingInv();
    RunInv(Nothing, before);
    CreatedWholeAndOnce(Nothing, before);
    CreatedWholeAndOnce(Run(Nothing, before), after);
  }

  lemma {:induction false} RunInv(s: State, actions: seq<Action>)
    requires Inv(s)
    ensures Inv(Run(s, actions))
    decreases |actions|
  {
    hide Step;
    if actions != [] {
      StepInv(s, actions[0]);
      RunInv(Step(s, actions[0]), actions[1..]);
    }
  }
}
