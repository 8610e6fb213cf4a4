/**
 The bounded serial event ledger of one Run, as a deterministic step function.

 Everything the event loop owns is one `Ledger` value. Tickets are referred to
 by sequence number, as the source refers to them by object identity: ticket
 `n` is `tickets[n - 1]`, and the two queues hold sequence numbers. Every
 stretch of source code between two suspension points is one step; the
 environment chooses the steps, the values read from the clock, the outcome of
 arming a timer, and how the durable append proceeds.
 */
module Ledger {
  import opened Wrappers
  import opened QueuePolicy

  const MAX_EVENT_BYTES_MIN := 256
  const MAX_EVENT_BYTES_MAX := 1024 * 1024
  const MAX_EVENTS_MAX := 1_000_000

  datatype WriterState = New | Running | Closing | Failing | ClosedOk | ClosedFailed

  datatype ConsumerState =
    NotStarted | ConsumerRunning | ExitedCloseStop | ExitedFailureDrain | ExitedError

  datatype TicketState = Pending | Admitted | Persisted | Expired | Failed | FailedUnpersisted

  datatype Code =
    | Serialization | MarkerTooLarge | MaxEvents | SaturatedCount | SaturatedBytes
    | ProducerTimeout | LedgerInvariant | ConsumerStart | AppendFailed | ConsumerCancelled
    | UnexpectedConsumerExit | CloseInconsistency | NoConsumer

  /** The fixed tie order of the failure vocabulary. */
  function Rank(code: Code): int {
    match code
    case Serialization => 10
    case MarkerTooLarge => 20
    case MaxEvents => 30
    case SaturatedCount => 40
    case SaturatedBytes => 50
    case ProducerTimeout => 60
    case LedgerInvariant => 70
    case ConsumerStart => 80
    case AppendFailed => 90
    case ConsumerCancelled => 100
    case UnexpectedConsumerExit => 110
    case CloseInconsistency => 120
    case NoConsumer => 130
  }

  datatype Key = Key(ordinal: int, code: Code)

  predicate Less(a: Key, b: Key) {
    a.ordinal < b.ordinal || (a.ordinal == b.ordinal && Rank(a.code) < Rank(b.code))
  }

  datatype Outcome = Outcome(ok: bool, ordinal: nat, code: Option<Code>)

  /**
   One accepted event. `acceptRead` and `admitRead` are history: which clock
   reads fixed the deadline and passed the deadline check at admission.
   */
  datatype Ticket = Ticket(
    seqNo: nat,
    wire: string,
    nbytes: nat,
    deadline: real,
    state: TicketState,
    admission: Option<Outcome>,
    persistence: Option<Outcome>,
    acceptRead: nat,
    admitRead: nat)

  /** The consumer task: absent, created, at its loop head, suspended on its wakeup, inside one append, or finished. */
  datatype Task = NoTask | Fresh | Ready | Idle | Appending(seqNo: nat) | Done(cancelled: bool)

  datatype CloseResult = ClosedWell | ClosedWith(failure: Key) | CloseCancelled

  datatype CloseTask = NoClose | CloseFresh | CloseWaiting | CloseJoining | CloseDone(result: CloseResult)

  datatype Cached = NotCached | Succeeded | FailedWith(failure: Key)

  /**
   The books: the tickets, the two queues, the counters, the failures raised,
   and the durable file. `torn` bytes of the first unacknowledged line are in
   the file; `ticks` counts the clock reads; `raised` is history.
   */
  datatype Books = Books(
    tickets: seq<Ticket>,
    pending: seq<nat>,
    admitted: seq<nat>,
    pendingBytes: int,
    queuedBytes: int,
    persistedBytes: int,
    accepted: nat,
    admittedHigh: nat,
    persisted: nat,
    tier: nat,
    growthMark: nat,
    lastDeadline: Option<real>,
    ticks: nat,
    primary: Option<Key>,
    raised: seq<Key>,
    file: string,
    torn: nat)

  /** The books and everything that controls them; `writing` names the line an append is writing. */
  datatype Ledger = Ledger(
    b: Books,
    inFlight: Option<nat>,
    state: WriterState,
    consumer: ConsumerState,
    drain: bool,
    stop: bool,
    wakeup: bool,
    pendingEmpty: bool,
    timer: Option<real>,
    generation: nat,
    consumerRef: bool,
    task: Task,
    doneSeen: bool,
    close: CloseTask,
    cached: Cached,
    writing: Option<nat>)

  /** What stays fixed for one Run: the limits, and the answers of clock and timer. */
  datatype Env = Env(
    maxEventBytes: int,
    maxEvents: int,
    tiers: Tiers,
    clock: nat -> Option<real>,
    arm: nat -> bool)

  const Initial := Ledger(
    Books([], [], [], 0, 0, 0, 0, 0, 0, 0, 0, None, 0, None, [], "", 0),
    None, New, NotStarted, false, false, false, true, None, 0, false, NoTask, false, NoClose, NotCached, None)

  predicate Open(s: Ledger) { s.state == New || s.state == Running || s.state == Closing }

  predicate Live(s: Ledger) {
    s.consumer == ConsumerRunning && s.consumerRef && !s.task.Done? && s.task != NoTask
  }

  /** Contiguous sequence numbers lo+1, ..., hi. */
  function Range(lo: nat, hi: nat): (r: seq<nat>)
    requires lo <= hi
    ensures |r| == hi - lo
    ensures forall i :: 0 <= i < |r| ==> r[i] == lo + 1 + i
  {
    seq(hi - lo, i requires 0 <= i < hi - lo => lo + 1 + i)
  }

  predicate Known(tickets: seq<Ticket>, ids: seq<nat>) {
    forall i :: 0 <= i < |ids| ==> 1 <= ids[i] <= |tickets|
  }

  /** The byte charge of a queue, recomputed from its tickets. */
  function Bytes(tickets: seq<Ticket>, ids: seq<nat>): nat
    requires Known(tickets, ids)
  {
    if ids == [] then 0 else tickets[ids[0] - 1].nbytes + Bytes(tickets, ids[1..])
  }

  /** The first `n` canonical lines, concatenated. */
  function Lines(tickets: seq<Ticket>, n: nat): string
    requires n <= |tickets|
  {
    if n == 0 then "" else Lines(tickets, n - 1) + tickets[n - 1].wire
  }

  // ---- the one failure funnel -------------------------------------------

  function Settle(phase: Option<Outcome>, outcome: Outcome): Option<Outcome> {
    if phase.Some? then phase else Some(outcome)
  }

  function FailPending(t: Ticket, code: Code, expired: bool): Ticket {
    var bad := Outcome(false, t.seqNo, Some(code));
    t.(state := if expired then Expired else Failed,
       admission := Settle(t.admission, bad),
       persistence := Settle(t.persistence, bad))
  }

  function FailAdmitted(t: Ticket, code: Code): Ticket {
    t.(state := FailedUnpersisted,
       persistence := Settle(t.persistence, Outcome(false, t.seqNo, Some(code))))
  }

  function FailTickets(
    tickets: seq<Ticket>, pending: seq<nat>, admitted: seq<nat>, code: Code, victim: Option<nat>): (r: seq<Ticket>)
    ensures |r| == |tickets|
  {
    seq(|tickets|, i requires 0 <= i < |tickets| =>
      if (i + 1) in pending then FailPending(tickets[i], code, victim == Some(i + 1))
      else if (i + 1) in admitted then FailAdmitted(tickets[i], code)
      else tickets[i])
  }

  function PoisonBooks(b: Books, key: Key, victim: Option<nat>, cannotPersist: bool): Books {
    b.(raised := b.raised + [key],
       primary := if b.primary.None? || Less(key, b.primary.value) then Some(key) else b.primary,
       tickets := FailTickets(b.tickets, b.pending, if cannotPersist then b.admitted else [], key.code, victim),
       pending := [],
       pendingBytes := 0,
       admitted := if cannotPersist then [] else b.admitted,
       queuedBytes := if cannotPersist then 0 else b.queuedBytes)
  }

  function Poison(s: Ledger, code: Code, ordinal: int, victim: Option<nat>, impossible: bool): Ledger {
    var key := Key(if ordinal < 1 then 1 else ordinal, code);
    var cannotPersist := impossible || s.consumer != ConsumerRunning;
    s.(b := PoisonBooks(s.b, key, victim, cannotPersist),
       state := if s.state == ClosedFailed then ClosedFailed else Failing,
       stop := false,
       timer := None,
       generation := s.generation + 1,
       pendingEmpty := true,
       inFlight := if cannotPersist then None else s.inFlight,
       drain := s.drain || !cannotPersist,
       wakeup := true)
  }

  function Lowest(b: Books): nat {
    if b.accepted > b.persisted then b.persisted + 1 else b.accepted + 1
  }

  // ---- the runtime self-check -------------------------------------------

  predicate CheckPasses(e: Env, s: Ledger) {
    && s.b.persisted <= s.b.admittedHigh <= s.b.accepted
    && s.b.tier < |e.tiers.capacities| && s.b.tier < |e.tiers.budgets|
    && Known(s.b.tickets, s.b.admitted) && Known(s.b.tickets, s.b.pending)
    && |s.b.admitted| <= e.tiers.capacities[s.b.tier]
    && s.b.queuedBytes == Bytes(s.b.tickets, s.b.admitted)
    && s.b.pendingBytes == Bytes(s.b.tickets, s.b.pending)
    && |s.b.pending| <= e.tiers.policy.maxEventCapacity
    && s.b.queuedBytes <= e.tiers.budgets[s.b.tier]
    && s.b.queuedBytes + s.b.pendingBytes <= e.tiers.policy.maxQueuedBytes
    && (s.inFlight.Some? ==> s.b.admitted != [] && s.b.admitted[0] == s.inFlight.value)
  }

  function Verify(e: Env, s: Ledger, ordinal: int): Ledger {
    if CheckPasses(e, s) then s else Poison(s, LedgerInvariant, ordinal, None, true)
  }

  // ---- the deadline-first pump ------------------------------------------

  predicate Room(e: Env, b: Books, nbytes: nat) {
    && b.tier < |e.tiers.capacities| && b.tier < |e.tiers.budgets|
    && |b.admitted| + 1 <= e.tiers.capacities[b.tier]
    && b.queuedBytes + nbytes <= e.tiers.budgets[b.tier]
  }

  predicate CanGrow(e: Env, s: Ledger) {
    && Live(s)
    && s.b.primary.None?
    && s.b.tier < |e.tiers.capacities| - 1
    && s.b.persisted > s.b.growthMark
  }

  predicate HasHead(b: Books) { b.pending != [] && 1 <= b.pending[0] <= |b.tickets| }

  function Head(b: Books): Ticket
    requires HasHead(b)
  {
    b.tickets[b.pending[0] - 1]
  }

  function Tick(b: Books): Books { b.(ticks := b.ticks + 1) }

  function AdmitHead(b: Books, read: nat): Books
    requires HasHead(b)
  {
    var t := Head(b);
    b.(pending := b.pending[1..],
       pendingBytes := b.pendingBytes - t.nbytes,
       tickets := b.tickets[b.pending[0] - 1 := t.(
         state := Admitted,
         admission := Settle(t.admission, Outcome(true, t.seqNo, None)),
         admitRead := read)],
       admitted := b.admitted + [b.pending[0]],
       queuedBytes := b.queuedBytes + t.nbytes,
       admittedHigh := b.pending[0])
  }

  function Grow(b: Books): Books { b.(tier := b.tier + 1, growthMark := b.persisted) }

  /** The pump loop; `poisoned` says that it returned from inside the loop. */
  datatype LoopExit = LoopExit(s: Ledger, poisoned: bool)

  function PumpLoop(e: Env, s: Ledger): LoopExit
    decreases |s.b.pending|, |e.tiers.capacities| - s.b.tier
  {
    if !HasHead(s.b) then LoopExit(s, false) else
    var head := Head(s.b);
    var s1 := s.(b := Tick(s.b));
    match e.clock(s.b.ticks)
    case None =>
      LoopExit(Poison(s1, LedgerInvariant, head.seqNo, None, !Live(s)), true)
    case Some(now) =>
      if now >= head.deadline then
        LoopExit(Poison(s1, ProducerTimeout, head.seqNo, Some(s.b.pending[0]), false), true)
      else if Room(e, s.b, head.nbytes) then
        PumpLoop(e, s1.(b := AdmitHead(s1.b, s.b.ticks), wakeup := true))
      else if CanGrow(e, s) then
        PumpLoop(e, s1.(b := Grow(s1.b)))
      else LoopExit(s1, false)
  }

  function DisarmTimer(s: Ledger): Ledger { s.(timer := None, generation := s.generation + 1) }

  function Rearm(e: Env, s: Ledger): Ledger {
    var s1 := DisarmTimer(s);
    if !HasHead(s.b) || !Open(s) then s1
    else if e.arm(s1.generation) then s1.(timer := Some(Head(s.b).deadline))
    else Poison(s1, LedgerInvariant, s.b.pending[0], None, !Live(s))
  }

  function Pump(e: Env, s: Ledger): Ledger {
    if !Open(s) then DisarmTimer(s) else
    var exit := PumpLoop(e, s);
    if exit.poisoned then exit.s else
    var s2 := Rearm(e, exit.s.(pendingEmpty := exit.s.b.pending == []));
    Verify(e, s2, Lowest(s2.b))
  }

  // ---- acceptance -------------------------------------------------------

  datatype Phase = AdmissionPhase | PersistencePhase

  datatype Reply =
    | Refused(ordinal: int, code: Option<Code>)
    | ClockRaised
    | Settled
    | Observing(seqNo: nat)

  function Digit(d: nat): char
    requires d < 10
  {
    ['0', '1', '2', '3', '4', '5', '6', '7', '8', '9'][d]
  }

  function Decimal(n: nat): string {
    if n < 10 then [Digit(n)] else Decimal(n / 10) + [Digit(n % 10)]
  }

  predicate FamilyHead(c: char) { 'a' <= c <= 'z' }

  predicate FamilyTail(c: char) { 'a' <= c <= 'z' || '0' <= c <= '9' || c == '_' }

  /** The bounded family name of an event: its own type when well formed, else a fixed word. */
  function Family(kind: Option<string>): (r: string)
    ensures 1 <= |r| <= 64
  {
    if kind.Some? && 1 <= |kind.value| <= 64 && FamilyHead(kind.value[0])
       && forall i :: 1 <= i < |kind.value| ==> FamilyTail(kind.value[i])
    then kind.value else "unknown_update"
  }

  /** The canonical line of the marker that replaces an oversized record. */
  function MarkerLine(seqNo: nat, kind: Option<string>): string {
    "{\"seq\": " + Decimal(seqNo)
    + ", \"truncate_reason\": \"max_event_bytes\", \"truncated\": true, \"type\": \""
    + Family(kind) + "\"}\n"
  }

  /** `full` is the canonical line of the whole record, or nothing when rendering it raised. */
  datatype Event = Event(full: Option<string>, kind: Option<string>)

  function Prepare(e: Env, ev: Event, seqNo: nat): Result<string, Code> {
    if ev.full.None? then Err(Serialization)
    else if |ev.full.value| <= e.maxEventBytes then Ok(ev.full.value)
    else if |MarkerLine(seqNo, ev.kind)| > e.maxEventBytes then Err(MarkerTooLarge)
    else Ok(MarkerLine(seqNo, ev.kind))
  }

  predicate Accepting(s: Ledger) { (s.state == New || s.state == Running) && s.b.primary.None? }

  function RefusedBy(s: Ledger): Reply {
    if s.b.primary.Some? then Refused(s.b.primary.value.ordinal, Some(s.b.primary.value.code))
    else Refused(s.b.accepted + 1, None)
  }

  function Fail(s: Ledger, code: Code, ordinal: int): (Ledger, Reply) {
    var s1 := Poison(s, code, ordinal, None, false);
    (s1, RefusedBy(s1))
  }

  /** The non-awaiting acceptance commit. */
  function Commit(b: Books, wire: string, deadline: real, read: nat): Books {
    var n := b.accepted + 1;
    b.(accepted := n,
       tickets := b.tickets + [Ticket(n, wire, |wire|, deadline, Pending, None, None, read, 0)],
       lastDeadline := Some(deadline),
       pending := b.pending + [n],
       pendingBytes := b.pendingBytes + |wire|)
  }

  function Answer(s: Ledger, n: nat, phase: Phase): Reply {
    if !(1 <= n <= |s.b.tickets|) then Observing(n) else
    var t := s.b.tickets[n - 1];
    var outcome := if phase == AdmissionPhase then t.admission else t.persistence;
    if outcome.Some? && !outcome.value.ok then Refused(outcome.value.ordinal, outcome.value.code)
    else if outcome.Some? && phase == AdmissionPhase then Settled
    else Observing(n)
  }

  function AcceptChecked(e: Env, s: Ledger, wire: string, phase: Phase): (Ledger, Reply) {
    var n := s.b.accepted + 1;
    if s.b.accepted >= e.maxEvents then Fail(s, MaxEvents, n)
    else if |s.b.pending| >= e.tiers.policy.maxEventCapacity then Fail(s, SaturatedCount, n)
    else if s.b.pendingBytes + s.b.queuedBytes + |wire| > e.tiers.policy.maxQueuedBytes then Fail(s, SaturatedBytes, n)
    else
      var s1 := s.(b := Tick(s.b));
      match e.clock(s.b.ticks)
      case None => (s1, ClockRaised)
      case Some(now) =>
        var deadline := now + e.tiers.policy.producerTimeout;
        if s.b.lastDeadline.Some? && deadline < s.b.lastDeadline.value then Fail(s1, LedgerInvariant, n)
        else
          var s2 := s1.(b := Commit(s1.b, wire, deadline, s.b.ticks), pendingEmpty := false);
          var s3 := Verify(e, s2, n);
          if !CheckPasses(e, s2) then (s3, RefusedBy(s3))
          else
            var s4 := Pump(e, s3);
            (s4, Answer(s4, n, phase))
  }

  function Submit(e: Env, s: Ledger, ev: Event, phase: Phase): (Ledger, Reply) {
    if !Accepting(s) then (s, RefusedBy(s)) else
    var s1 := Pump(e, s);
    if !Accepting(s1) then (s1, RefusedBy(s1)) else
    match Prepare(e, ev, s1.b.accepted + 1)
    case Err(code) => Fail(s1, code, s1.b.accepted + 1)
    case Ok(wire) =>
      var s2 := Pump(e, s1);
      if !Accepting(s2) then (s2, RefusedBy(s2)) else AcceptChecked(e, s2, wire, phase)
  }

  function EmitAwaited(e: Env, s: Ledger, ev: Event): (Ledger, Reply) {
    if !Live(s) then
      var s1 := Poison(s, NoConsumer, s.b.accepted + 1, None, true);
      (s1, RefusedBy(s1))
    else Submit(e, s, ev, PersistencePhase)
  }

  // ---- durable acknowledgement and the consumer -------------------------

  /** The head of the admitted queue is acknowledged: its line in the file is complete. */
  function AckHead(b: Books): Books
    requires b.admitted != [] && 1 <= b.admitted[0] <= |b.tickets|
  {
    var n := b.admitted[0];
    var t := b.tickets[n - 1];
    b.(admitted := b.admitted[1..],
       queuedBytes := b.queuedBytes - t.nbytes,
       persistedBytes := b.persistedBytes + t.nbytes,
       persisted := n,
       tickets := b.tickets[n - 1 := t.(
         state := Persisted,
         persistence := Settle(t.persistence, Outcome(true, t.seqNo, None)))],
       torn := 0)
  }

  function DurableAck(e: Env, s: Ledger, n: nat): Ledger {
    if s.b.admitted == [] || s.b.admitted[0] != n || s.inFlight != Some(n)
       || !(1 <= n <= |s.b.tickets|) || s.b.tickets[n - 1].state != Admitted || n != s.b.persisted + 1
    then Poison(s, LedgerInvariant, n, None, true)
    else
      var s1 := s.(b := AckHead(s.b), inFlight := None);
      if !CheckPasses(e, s1) then Verify(e, s1, n)
      else Pump(e, s1).(wakeup := true)
  }

  datatype Next = TakeTicket(seqNo: nat) | DrainComplete | CloseStop | Wait

  function Peek(s: Ledger): Next {
    if s.b.admitted != [] then TakeTicket(s.b.admitted[0])
    else if s.state == Failing || s.drain then DrainComplete
    else if s.stop then CloseStop
    else Wait
  }

  function ConsumerExits(s: Ledger, how: ConsumerState, cancelled: bool): Ledger {
    s.(consumer := how, pendingEmpty := true, wakeup := true, task := Done(cancelled))
  }

  function ConsumerRuns(s: Ledger): Ledger {
    if s.task != Fresh && s.task != Ready && !(s.task == Idle && s.wakeup) then s else
    match Peek(s)
    case TakeTicket(n) => s.(inFlight := Some(n), task := Appending(n), writing := Some(n))
    case DrainComplete => ConsumerExits(s, ExitedFailureDrain, false)
    case CloseStop =>
      if s.state == Closing && s.b.pending == [] && s.b.primary.None? then
        ConsumerExits(s.(stop := false), ExitedCloseStop, false)
      else
        ConsumerExits(Poison(s, CloseInconsistency, Lowest(s.b), None, true), ExitedError, false)
    case Wait => s.(task := Idle, wakeup := false)
  }

  /** Some more bytes of the first unacknowledged line reach the file, in order. */
  function WriteBytes(b: Books, line: string, n: nat): Books
    requires b.torn <= |line|
  {
    var k := if n < |line| - b.torn then n else |line| - b.torn;
    b.(file := b.file + line[b.torn..b.torn + k], torn := b.torn + k)
  }

  /** The append writes some more bytes of its line (short writes included). */
  function SinkWrites(s: Ledger, n: nat): Ledger {
    if s.writing.None? || !(1 <= s.writing.value <= |s.b.tickets|) then s else
    var line := s.b.tickets[s.writing.value - 1].wire;
    if s.b.torn > |line| then s else s.(b := WriteBytes(s.b, line, n))
  }

  /** A successful return of the append, possible once the whole line is written. */
  function AppendReturns(e: Env, s: Ledger): Ledger {
    if !s.task.Appending? || s.writing != Some(s.task.seqNo) || !(1 <= s.task.seqNo <= |s.b.tickets|)
       || s.b.torn != |s.b.tickets[s.task.seqNo - 1].wire|
    then s
    else DurableAck(e, s.(writing := None, task := Ready), s.task.seqNo)
  }

  function AppendRaises(s: Ledger): Ledger {
    if !s.task.Appending? then s
    else
      ConsumerExits(Poison(s.(writing := None), AppendFailed, s.task.seqNo, None, true), ExitedError, false)
  }

  /** An abandoned append thread, left behind by a cancelled consumer, ends. */
  function OrphanEnds(s: Ledger): Ledger {
    if s.task.Appending? then s else s.(writing := None)
  }

  function CancelConsumer(s: Ledger): Ledger {
    match s.task
    case Appending(n) => ConsumerExits(Poison(s, ConsumerCancelled, n, None, true), ExitedError, true)
    case Idle => ConsumerExits(Poison(s, ConsumerCancelled, Lowest(s.b), None, true), ExitedError, true)
    case Fresh => s.(task := Done(true))
    case _ => s
  }

  function ConsumerDone(s: Ledger): Ledger {
    if !s.task.Done? || s.doneSeen then s else
    var s1 :=
      if s.consumer == ConsumerRunning then
        Poison(s, if s.task.cancelled then ConsumerCancelled else UnexpectedConsumerExit, Lowest(s.b), None, true)
        .(consumer := ExitedError)
      else s;
    s1.(pendingEmpty := true, wakeup := true, doneSeen := true)
  }

  function Start(s: Ledger, created: bool): Ledger {
    if s.consumer != NotStarted || s.state != New then s
    else if !created then
      Poison(s.(consumer := ExitedError), ConsumerStart, Lowest(s.b), None, true)
    else
      s.(consumerRef := true, consumer := ConsumerRunning, state := Running, task := Fresh, wakeup := true)
  }

  function TimerFires(e: Env, s: Ledger, generation: nat): Ledger {
    if generation != s.generation then s else Pump(e, s.(timer := None))
  }

  // ---- close ------------------------------------------------------------

  function Close(e: Env, s: Ledger): Ledger {
    if s.close != NoClose then s
    else if s.state == New || s.state == Running then
      Pump(e, s.(state := Closing, close := CloseFresh))
    else s.(close := CloseFresh)
  }

  function CloseFails(s: Ledger): Ledger
    requires s.b.primary.Some?
  {
    s.(state := ClosedFailed, close := CloseDone(ClosedWith(s.b.primary.value)))
  }

  function CloseFinish(s: Ledger): Ledger {
    var s1 := DisarmTimer(s);
    var clean := s.b.primary.None?
      && ((s.consumer == NotStarted && s.b.accepted == 0)
          || (s.consumer == ExitedCloseStop && s.b.persisted == s.b.accepted));
    if clean then s1.(state := ClosedOk, close := CloseDone(ClosedWell))
    else if s.b.primary.None? then CloseFails(Poison(s1, CloseInconsistency, Lowest(s1.b), None, true))
    else CloseFails(s1)
  }

  function RequestStop(s: Ledger): Ledger {
    if s.state == Closing && s.b.primary.None?
    then s.(stop := true, wakeup := true, close := CloseJoining)
    else s.(close := CloseJoining)
  }

  function CloseDrains(e: Env, s: Ledger): Ledger {
    if s.b.pending == [] then RequestStop(s) else
    var s1 := Pump(e, s.(pendingEmpty := false));
    if s1.b.pending == [] then RequestStop(s1) else s1.(close := CloseWaiting)
  }

  function CloseStarts(e: Env, s: Ledger): Ledger {
    if s.consumer == NotStarted then
      if s.b.accepted == 0 && s.b.primary.None? then
        DisarmTimer(s).(state := ClosedOk, close := CloseDone(ClosedWell))
      else CloseFails(Poison(s, NoConsumer, Lowest(s.b), None, true))
    else if !s.consumerRef then
      CloseFinish(Poison(s, CloseInconsistency, Lowest(s.b), None, true))
    else CloseDrains(e, s)
  }

  function CloseJoins(s: Ledger): Ledger {
    if !s.task.Done? then s else
    var s1 :=
      if s.task.cancelled && s.consumer == ConsumerRunning then
        Poison(s, ConsumerCancelled, Lowest(s.b), None, true).(consumer := ExitedError)
      else s;
    CloseFinish(s1.(consumerRef := false))
  }

  function CloseRuns(e: Env, s: Ledger): Ledger {
    match s.close
    case CloseFresh => CloseStarts(e, s)
    case CloseWaiting => if s.pendingEmpty then CloseDrains(e, s) else s
    case CloseJoining => CloseJoins(s)
    case _ => s
  }

  function CancelClose(s: Ledger): Ledger {
    if s.close == CloseFresh || s.close == CloseWaiting || (s.close == CloseJoining && !s.task.Done?)
    then s.(close := CloseDone(CloseCancelled)) else s
  }

  function CacheClose(s: Ledger): Ledger {
    if !s.close.CloseDone? || s.cached != NotCached then s else
    match s.close.result
    case ClosedWell => s.(cached := Succeeded)
    case ClosedWith(k) => s.(cached := FailedWith(k))
    case CloseCancelled =>
      var s1 := if s.b.primary.None? then Poison(s, CloseInconsistency, Lowest(s.b), None, true) else s;
      s1.(cached := FailedWith(s1.b.primary.value), state := ClosedFailed)
  }

  // ---- runs -------------------------------------------------------------

  datatype Action =
    | DoStart(created: bool)
    | DoSubmit(ev: Event)
    | DoEmitAwaited(ev: Event)
    | DoTimer(generation: nat)
    | DoConsumer
    | DoSinkWrites(n: nat)
    | DoAppendReturns
    | DoAppendRaises
    | DoOrphanEnds
    | DoCancelConsumer
    | DoConsumerDone
    | DoClose
    | DoCloseRuns
    | DoCancelClose
    | DoCacheClose

  function Step(e: Env, s: Ledger, a: Action): Ledger {
    match a
    case DoStart(created) => Start(s, created)
    case DoSubmit(ev) => Submit(e, s, ev, AdmissionPhase).0
    case DoEmitAwaited(ev) => EmitAwaited(e, s, ev).0
    case DoTimer(generation) => TimerFires(e, s, generation)
    case DoConsumer => ConsumerRuns(s)
    case DoSinkWrites(n) => SinkWrites(s, n)
    case DoAppendReturns => AppendReturns(e, s)
    case DoAppendRaises => AppendRaises(s)
    case DoOrphanEnds => OrphanEnds(s)
    case DoCancelConsumer => CancelConsumer(s)
    case DoConsumerDone => ConsumerDone(s)
    case DoClose => Close(e, s)
    case DoCloseRuns => CloseRuns(e, s)
    case DoCancelClose => CancelClose(s)
    case DoCacheClose => CacheClose(s)
  }

  /** The state after a whole run. */
  function Run(e: Env, s: Ledger, actions: seq<Action>): Ledger
    decreases |actions|
  {
    if actions == [] then s else Run(e, Step(e, s, actions[0]), actions[1..])
  }
}
