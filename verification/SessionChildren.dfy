/**
 * Why a lease should be updated once: a run in which a second update lets the lease be reclaimed under a living child.
 */
module SessionChildren {
  import opened Wrappers
  import opened Liveness
  import opened Sessions
  import opened SessionTheorems
  import opened SessionStore

  const HOST := "h"

  /** A supervisor, its two children and another supervisor, in one boot of one host. */
  const FOUR := World([Process(HOST, 0, 1, 0), Process(HOST, 0, 2, 0), Process(HOST, 0, 3, 0), Process(HOST, 0, 4, 0)],
                      {0, 1, 2, 3}, map[])

  function Ident(who: nat): Identity {
    Identity(Some(who + 1), None, None, HOST)
  }

  const SILENT := Probe(HOST, None, (pid: int) => None, (pid: int) => None)

  /** What is true once the first supervisor and the second child are gone. */
  const HALF := Probe(HOST, None, (pid: int) => Some(pid == 2 || pid == 4), (pid: int) => None)

  const TAKE := Acquire(false, "run", 10, false, true)
  const NAME_CHILD := UpdateHolder(0, true)
  const RECLAIM := Acquire(false, "next", 10, true, true)

  function In(who: nat): Input {
    Input(0, SILENT, Ident(who), who)
  }

  const LAST := Input(1, HALF, Ident(3), 3)

  lemma FourIsValid()
    ensures ValidWorld(FOUR)
    ensures forall who: nat :: who < 4 ==> Describes(Ident(who), FOUR, who)
  {
  }

  /** One caller's uninterrupted operation in a world its input is true of. */
  lemma Calls(s: State, op: Op, input: Input, w: World)
    requires Inv(s) && s.guard.None? && PcOf(s, 0).Idle? && Begins(op) && Now(s) == w
    requires Describes(input.identity, w, input.who) && Truthful(input.probe, [w])
    ensures var s' := Run(s, Solo(0, op, input));
      Inv(s') && DoneWith(s, s', 0, op, input) && |s'.worlds| > 0 && Now(s') == w
  {
    hide Inv, Describes, Truthful, Run, Whole, Refusal;
    HasWorlds(s);
    assert s.worlds[|s.worlds| - 1..] == [w];
    SoloIsWhole(s, 0, op, input);
    RunInv(s, Solo(0, op, input));
  }

  lemma HasWorlds(s: State)
    requires Inv(s)
    ensures |s.worlds| > 0
  {
  }

  lemma SilentIsTruthful(w: World)
    ensures Truthful(SILENT, [w])
  {
  }

  /** Who is left once processes 0 and 2 have exited. */
  const TWO := World(FOUR.born, {1, 3}, map[])

  lemma TwoAreLeft()
    ensures StepHost(StepHost(FOUR, Exit(0)), Exit(2)) == TWO
    ensures Truthful(HALF, [TWO]) && Describes(Ident(3), TWO, 3)
  {
    assert {0, 1, 2, 3} - {0} - {2} == {1, 3};
    forall pid: int
      ensures Occupied(TWO, HOST, pid) <==> pid == 2 || pid == 4
    {
      if pid == 2 { assert 1 in TWO.alive; }
      if pid == 4 { assert 3 in TWO.alive; }
    }
    assert [TWO][0] == TWO;
  }

  const UP_TO_EXIT := Solo(0, TAKE, In(0)) + (Solo(0, NAME_CHILD, In(1)) + Solo(0, NAME_CHILD, In(2)))
  const GONE := [Host(Exit(0)), Host(Exit(2))]

  /** The lock after the lease was taken and two children were named, one after the other. */
  function Renamed(): Lock {
    WithChild(WithChild(Minted(TAKE, 0, 0, In(0)), NAME_CHILD, In(1)), NAME_CHILD, In(2))
  }

  lemma TakenAndRenamed(record: Record)
    ensures var s := Run(Created(record, FOUR), UP_TO_EXIT);
      && Inv(s) && s.guard.None? && PcOf(s, 0).Idle? && Now(s) == FOUR && s.nextToken == 1
      && s.disk.lock == Some(Renamed()) && s.grants == [Grant(0, false)]
  {
    hide Inv, Describes, Truthful, Run, Step, ValidWorld;
    FourIsValid();
    SilentIsTruthful(FOUR);
    CreatedInv(record, FOUR);
    var s0 := Created(record, FOUR);
    Calls(s0, TAKE, In(0), FOUR);
    var s1 := Run(s0, Solo(0, TAKE, In(0)));
    Calls(s1, NAME_CHILD, In(1), FOUR);
    var s2 := Run(s1, Solo(0, NAME_CHILD, In(1)));
    Calls(s2, NAME_CHILD, In(2), FOUR);
    RunAppend(s0, Solo(0, TAKE, In(0)), Solo(0, NAME_CHILD, In(1)) + Solo(0, NAME_CHILD, In(2)));
    RunAppend(s1, Solo(0, NAME_CHILD, In(1)), Solo(0, NAME_CHILD, In(2)));
  }

  lemma Exits(s: State)
    requires Inv(s) && Now(s) == FOUR
    ensures var s' := Run(s, GONE); Inv(s') && Now(s') == TWO && s' == s.(worlds := s'.worlds)
  {
    RunInv(s, GONE);
    hide Inv;
    TwoAreLeft();
    var s1 := Step(s, Host(Exit(0)));
    assert GONE[1..] == [Host(Exit(2))] && GONE[1..][1..] == [];
    assert Run(s1, GONE[1..]) == Run(Step(s1, Host(Exit(2))), []);
  }

  lemma BothNamedAreDead()
    ensures HolderCrashed(Renamed(), HALF)
        && Refusal(Disk(Record(None, None, None, ""), None, Some(Renamed())), RECLAIM, LAST).None?
  {
  }

  /**
   * A lease is taken by process 0, which names child 1 and then child 2. Processes 0 and 2 exit, and a reclaiming
   * caller with a truthful probe is granted the lease while child 1 is alive.
   */
  lemma ReclaimedUnderLivingChild(record: Record)
    ensures var s := Run(Created(record, FOUR), UP_TO_EXIT + (GONE + Solo(0, RECLAIM, LAST)));
      && s.grants == [Grant(0, false), Grant(1, false)]
      && s.disk.lock.Some? && s.disk.lock.value.token == 1
      && |s.worlds| > 0 && 1 in Now(s).alive
  {
    hide Inv, Describes, Truthful, Run, Step;
    TakenAndRenamed(record);
    var s0 := Created(record, FOUR);
    var s1 := Run(s0, UP_TO_EXIT);
    Exits(s1);
    TwoAreLeft();
    var s2 := Run(s1, GONE);
    Calls(s2, RECLAIM, LAST, TWO);
    BothNamedAreDead();
    RunAppend(s0, UP_TO_EXIT, GONE + Solo(0, RECLAIM, LAST));
    RunAppend(s1, GONE, Solo(0, RECLAIM, LAST));
  }
}
