/**
 * Whether the processes a lease names are alive: the verdicts of `process_liveness.py`, and a host model with PID
 * reuse and reboots against which they are judged.
 */
module Liveness {
  import opened Wrappers

  datatype Verdict = Alive | Crashed | Unknown

  /** A recorded identity; every field may be missing from a lock file. An empty host counts as missing. */
  datatype Identity = Identity(pid: Option<int>, start: Option<nat>, boot: Option<nat>, host: string)

  /** The three signals a verdict may use, as one call observes them. */
  datatype Probe = Probe(host: string, boot: Option<nat>, isRunning: int -> Option<bool>, readStart: int -> Option<nat>)

  function ClassifyHolder(h: Identity, p: Probe): Verdict {
    if h.pid.None? || h.pid.value <= 0 then Unknown
    else if h.host == "" || h.host != p.host then Unknown
    else if h.boot.Some? && p.boot.Some? && h.boot != p.boot then Crashed
    else
      match p.isRunning(h.pid.value)
      case Some(false) => Crashed
      case None => Unknown
      case Some(true) =>
        if h.start.Some? && p.readStart(h.pid.value).Some? then
          if h.start == p.readStart(h.pid.value) then Alive else Crashed
        else Unknown
  }

  function Combine(supervisor: Verdict, child: Verdict): Verdict {
    if supervisor == Alive || child == Alive then Alive
    else if supervisor == Crashed && child == Crashed then Crashed
    else Unknown
  }

  function ClassifyLock(supervisor: Identity, child: Option<Identity>, p: Probe): Verdict {
    match child
    case None => ClassifyHolder(supervisor, p)
    case Some(c) => if c.pid.None? then ClassifyHolder(supervisor, p)
        else Combine(ClassifyHolder(supervisor, p), ClassifyHolder(c, p))
  }

  // ---- hosts -------------------------------------------------------------------

  /** One process, from its birth on. `start` is in clock ticks of its boot: two processes may share a tick. */
  datatype Process = Process(host: string, boot: nat, pid: int, start: nat)

  /** Every process ever born, which of them are alive, and the boot each host is in. */
  datatype World = World(born: seq<Process>, alive: set<nat>, boots: map<string, nat>)

  function BootOf(w: World, host: string): nat {
    if host in w.boots then w.boots[host] else 0
  }

  predicate SamePlace(p: Process, q: Process) {
    p.host == q.host && p.pid == q.pid
  }

  ghost predicate ValidWorld(w: World) {
    && (forall i :: i in w.alive ==> i < |w.born| && w.born[i].pid > 0 && w.born[i].boot == BootOf(w, w.born[i].host))
    && (forall i, j :: i in w.alive && j in w.alive && SamePlace(w.born[i], w.born[j]) ==> i == j)
  }

  datatype HostStep =
    | Spawn(host: string, pid: int, start: nat)
    | Exit(who: nat)
    | Reboot(host: string)

  function Occupied(w: World, host: string, pid: int): bool {
    exists i :: i in w.alive && i < |w.born| && w.born[i].host == host && w.born[i].pid == pid
  }

  /** A PID is free for reuse as soon as its process has gone; a reboot kills every process of its host. */
  function StepHost(w: World, step: HostStep): World {
    match step
    case Spawn(host, pid, start) =>
      if pid <= 0 || Occupied(w, host, pid) then w
      else w.(born := w.born + [Process(host, BootOf(w, host), pid, start)], alive := w.alive + {|w.born|})
    case Exit(who) => w.(alive := w.alive - {who})
    case Reboot(host) =>
      w.(alive := (set i | i in w.alive && (i < |w.born| ==> w.born[i].host != host)),
         boots := w.boots[host := BootOf(w, host) + 1])
  }

  lemma StepHostValid(w: World, step: HostStep)
    requires ValidWorld(w)
    ensures ValidWorld(StepHost(w, step))
    ensures Later(w, StepHost(w, step))
  {
  }

  /** What the passage of time can do: the past is not rewritten, and the dead do not rise. */
  ghost predicate Later(w: World, w': World) {
    && w.born <= w'.born
    && (forall i :: i in w'.alive && i < |w.born| ==> i in w.alive)
  }

  lemma LaterTransitive(w: World, w': World, w'': World)
    requires Later(w, w') && Later(w', w'')
    ensures Later(w, w'')
  {
  }

  /** Successive moments of the hosts. */
  ghost predicate Moments(ws: seq<World>) {
    && |ws| > 0
    && (forall k :: 0 <= k < |ws| ==> ValidWorld(ws[k]))
    && (forall j, k :: 0 <= j <= k < |ws| ==> Later(ws[j], ws[k]))
  }

  lemma MomentsGrow(ws: seq<World>, step: HostStep)
    requires Moments(ws)
    ensures Moments(ws + [StepHost(ws[|ws| - 1], step)])
  {
    var last := ws[|ws| - 1];
    var next := StepHost(last, step);
    StepHostValid(last, step);
    forall j | 0 <= j < |ws|
      ensures Later(ws[j], next)
    {
      LaterTransitive(ws[j], last, next);
    }
  }

  /** Each signal was true at some moment while the probe ran: not all at one moment, and nothing need be answered. */
  ghost predicate Truthful(p: Probe, ws: seq<World>) {
    && (p.boot.Some? ==> exists k :: 0 <= k < |ws| && BootOf(ws[k], p.host) == p.boot.value)
    && (forall pid :: p.isRunning(pid).Some? ==>
          exists k :: 0 <= k < |ws| && p.isRunning(pid).value == Occupied(ws[k], p.host, pid))
    && (forall pid :: p.readStart(pid).Some? ==>
          exists k, i :: 0 <= k < |ws| && i in ws[k].alive && i < |ws[k].born|
            && ws[k].born[i] == Process(p.host, ws[k].born[i].boot, pid, p.readStart(pid).value))
  }

  /** The identity names process `who`; start time and boot may have been unreadable when it was recorded. */
  ghost predicate Describes(h: Identity, w: World, who: nat) {
    && who < |w.born|
    && h.pid == Some(w.born[who].pid)
    && h.host == w.born[who].host
    && (h.start.Some? ==> h.start.value == w.born[who].start)
    && (h.boot.Some? ==> h.boot.value == w.born[who].boot)
  }

  /** Still alive at the end means alive throughout. */
  lemma AliveThroughout(ws: seq<World>, who: nat, k: nat)
    requires Moments(ws) && k < |ws| && who < |ws[0].born| && who in ws[|ws| - 1].alive
    ensures who in ws[k].alive && who < |ws[k].born| && ws[k].born[who] == ws[0].born[who]
  {
    assert Later(ws[0], ws[k]) && Later(ws[k], ws[|ws| - 1]);
  }

  lemma LiveBootMatches(h: Identity, p: Probe, ws: seq<World>, who: nat)
    requires Moments(ws) && Truthful(p, ws) && Describes(h, ws[0], who) && who in ws[|ws| - 1].alive && h.host == p.host
    ensures h.boot.Some? && p.boot.Some? ==> h.boot == p.boot
  {
    if h.boot.Some? && p.boot.Some? {
      var k :| 0 <= k < |ws| && BootOf(ws[k], p.host) == p.boot.value;
      AliveThroughout(ws, who, k);
    }
  }

  lemma LivePidIsSeen(h: Identity, p: Probe, ws: seq<World>, who: nat)
    requires Moments(ws) && Truthful(p, ws) && Describes(h, ws[0], who) && who in ws[|ws| - 1].alive && h.host == p.host
    ensures p.isRunning(h.pid.value) != Some(false)
  {
    if p.isRunning(h.pid.value) == Some(false) {
      var k :| 0 <= k < |ws| && false == Occupied(ws[k], p.host, h.pid.value);
      AliveThroughout(ws, who, k);
    }
  }

  lemma LiveStartMatches(h: Identity, p: Probe, ws: seq<World>, who: nat)
    requires Moments(ws) && Truthful(p, ws) && Describes(h, ws[0], who) && who in ws[|ws| - 1].alive && h.host == p.host
    ensures h.start.Some? && p.readStart(h.pid.value).Some? ==> h.start == p.readStart(h.pid.value)
  {
    var pid := h.pid.value;
    if h.start.Some? && p.readStart(pid).Some? {
      var k, i :| 0 <= k < |ws| && i in ws[k].alive && i < |ws[k].born|
        && ws[k].born[i] == Process(p.host, ws[k].born[i].boot, pid, p.readStart(pid).value);
      AliveThroughout(ws, who, k);
      assert ValidWorld(ws[k]);
    }
  }

  /** A holder judged crashed is really dead, whatever died, was born, reused its PID or rebooted meanwhile. */
  lemma CrashedIsDead(h: Identity, p: Probe, ws: seq<World>, who: nat)
    requires Moments(ws) && Truthful(p, ws) && Describes(h, ws[0], who)
    requires ClassifyHolder(h, p) == Crashed
    ensures who !in ws[|ws| - 1].alive
  {
    if who in ws[|ws| - 1].alive {
      LiveBootMatches(h, p, ws, who);
      LivePidIsSeen(h, p, ws, who);
      LiveStartMatches(h, p, ws, who);
    }
  }

  /** A lock is judged crashed only when the supervisor and any recorded child are both dead. */
  lemma CrashedLockIsDead(s: Identity, c: Option<Identity>, p: Probe, ws: seq<World>, supervisor: nat, child: nat)
    requires Moments(ws) && Truthful(p, ws) && Describes(s, ws[0], supervisor)
    requires c.Some? ==> Describes(c.value, ws[0], child)
    requires ClassifyLock(s, c, p) == Crashed
    ensures supervisor !in ws[|ws| - 1].alive
    ensures c.Some? ==> child !in ws[|ws| - 1].alive
  {
    CrashedIsDead(s, p, ws, supervisor);
    if c.Some? {
      CrashedIsDead(c.value, p, ws, child);
    }
  }

  /** Nothing else on the host was ever born with this process's PID in its boot and tick. */
  ghost predicate Distinguished(w: World, who: nat)
    requires who < |w.born|
  {
    forall i :: 0 <= i < |w.born| && w.born[i] == w.born[who] ==> i == who
  }

  /** Every signal was answered, all at the one moment `w`. */
  ghost predicate Answers(p: Probe, w: World, pid: int) {
    && p.boot == Some(BootOf(w, p.host))
    && p.isRunning(pid) == Some(Occupied(w, p.host, pid))
    && (Occupied(w, p.host, pid) ==> p.readStart(pid).Some?)
  }

  /**
   * The partner of CrashedIsDead: when the record is complete and every signal is answered, the verdict is exact.
   * Sharing a start tick with an earlier holder of the PID is the one way to look alive when dead.
   */
  lemma VerdictIsExact(h: Identity, p: Probe, w: World, who: nat)
    requires ValidWorld(w) && Truthful(p, [w]) && Describes(h, w, who) && Distinguished(w, who)
    requires h.host == p.host != "" && h.start.Some? && h.boot.Some? && w.born[who].pid > 0
    requires Answers(p, w, h.pid.value)
    ensures who in w.alive <==> ClassifyHolder(h, p) == Alive
    ensures who !in w.alive <==> ClassifyHolder(h, p) == Crashed
  {
    var pid := h.pid.value;
    assert Moments([w]);
    if who in w.alive {
      LiveBootMatches(h, p, [w], who);
      LiveStartMatches(h, p, [w], who);
      LivePidIsSeen(h, p, [w], who);
    }
  }
}
