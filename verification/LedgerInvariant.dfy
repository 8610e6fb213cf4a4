/**
 The invariant of the event ledger.

 `Balanced` says what the queues, counters, tickets, failures and the durable
 file have to do with each other; `Control` relates the writer, its consumer
 task and its close task; `Quiet` is what additionally holds between steps.
 */
module LedgerInvariant {
  import opened Wrappers
  import opened QueuePolicy
  import opened Ledger

  ghost predicate ValidEnv(e: Env) {
    && ValidTiers(e.tiers)
    && MAX_EVENT_BYTES_MIN <= e.maxEventBytes <= MAX_EVENT_BYTES_MAX
    && 1 <= e.maxEvents <= MAX_EVENTS_MAX
    && Monotone(e.clock)
  }

  /** The clock never runs backwards; a read may still fail. */
  ghost predicate Monotone(clock: nat -> Option<real>) {
    forall i: nat, j: nat :: i <= j && clock(i).Some? && clock(j).Some? ==> clock(i).value <= clock(j).value
  }

  ghost predicate HasFailed(b: Books) { b.primary.Some? }

  /** The least of a non-empty list of failures, in the order (ordinal, rank). */
  ghost predicate IsLeast(k: Key, keys: seq<Key>) {
    k in keys && forall x :: x in keys ==> k == x || Less(k, x)
  }

  // ---- the books --------------------------------------------------------

  ghost predicate Counts(b: Books) {
    && b.persisted <= b.admittedHigh <= b.accepted == |b.tickets|
    && forall i :: 0 <= i < |b.tickets| ==> b.tickets[i].seqNo == i + 1 && b.tickets[i].nbytes == |b.tickets[i].wire|
  }

  /** Persisted, admitted and pending are contiguous blocks; a failure empties the last and may empty the second. */
  ghost predicate Queues(b: Books)
    requires Counts(b)
  {
    && (b.admitted == Range(b.persisted, b.admittedHigh) || (HasFailed(b) && b.admitted == []))
    && b.pending == if HasFailed(b) then [] else Range(b.admittedHigh, b.accepted)
  }

  /** Both byte counters are the exact sums, and every count and byte ceiling holds. */
  ghost predicate Ceilings(e: Env, b: Books)
    requires ValidTiers(e.tiers) && Counts(b) && Queues(b)
  {
    && b.tier < |e.tiers.capacities|
    && |b.admitted| <= e.tiers.capacities[b.tier]
    && |b.pending| <= e.tiers.policy.maxEventCapacity
    && b.queuedBytes == Bytes(b.tickets, b.admitted) <= e.tiers.budgets[b.tier]
    && b.pendingBytes == Bytes(b.tickets, b.pending)
    && b.queuedBytes + b.pendingBytes <= e.tiers.policy.maxQueuedBytes
    && b.accepted <= e.maxEvents
    && b.tier <= b.growthMark <= b.persisted
    && b.persistedBytes == |Lines(b.tickets, b.persisted)|
    && forall i :: 0 <= i < |b.tickets| ==> b.tickets[i].nbytes <= e.maxEventBytes
  }

  ghost predicate Good(o: Option<Outcome>, n: nat) { o == Some(Outcome(true, n, None)) }

  ghost predicate Bad(o: Option<Outcome>, n: nat) {
    o.Some? && !o.value.ok && o.value.ordinal == n && o.value.code.Some?
  }

  /** The state and the two phases of ticket `i + 1` are exactly those of the block it lies in. */
  ghost predicate PhaseOk(b: Books, i: nat)
    requires i < |b.tickets|
  {
    var t, n := b.tickets[i], i + 1;
    if i < b.persisted then t.state == Persisted && Good(t.admission, n) && Good(t.persistence, n)
    else if i < b.admittedHigh then
      && Good(t.admission, n)
      && if b.admitted != [] then t.state == Admitted && t.persistence.None?
         else t.state == FailedUnpersisted && Bad(t.persistence, n)
    else if HasFailed(b) then (t.state == Expired || t.state == Failed) && Bad(t.admission, n) && Bad(t.persistence, n)
    else t.state == Pending && t.admission.None? && t.persistence.None?
  }

  ghost predicate Phases(b: Books) {
    forall i: nat :: i < |b.tickets| ==> PhaseOk(b, i)
  }

  /** The deadline comes from an earlier clock read, and admission happened before it. */
  ghost predicate TimeOk(e: Env, b: Books, i: nat)
    requires i < |b.tickets|
  {
    var t := b.tickets[i];
    && t.acceptRead < b.ticks && e.clock(t.acceptRead).Some?
    && t.deadline == e.clock(t.acceptRead).value + e.tiers.policy.producerTimeout
    && (i < b.admittedHigh ==> e.clock(t.admitRead).Some? && e.clock(t.admitRead).value < t.deadline)
  }

  ghost predicate Times(e: Env, b: Books) {
    && (forall i: nat :: i < |b.tickets| ==> TimeOk(e, b, i))
    && (forall i: nat, j: nat :: i < j < |b.tickets| ==> b.tickets[i].acceptRead < b.tickets[j].acceptRead)
    && b.lastDeadline == if b.tickets == [] then None else Some(b.tickets[|b.tickets| - 1].deadline)
  }

  ghost predicate Failures(b: Books) {
    && (b.primary.None? <==> b.raised == [])
    && (b.primary.Some? ==> IsLeast(b.primary.value, b.raised))
  }

  /** The durable file: the acknowledged lines in order, then `torn` bytes of the next one. */
  ghost predicate FileOk(b: Books)
    requires Counts(b)
  {
    && (b.torn > 0 ==> b.persisted < b.admittedHigh && b.torn <= |b.tickets[b.persisted].wire|)
    && b.file == Lines(b.tickets, b.persisted) + (if b.torn == 0 then "" else b.tickets[b.persisted].wire[..b.torn])
  }

  ghost predicate Balanced(e: Env, b: Books) {
    && ValidEnv(e)
    && Counts(b) && Queues(b) && Ceilings(e, b) && Phases(b) && Times(e, b) && Failures(b) && FileOk(b)
  }

  // ---- control ----------------------------------------------------------

  ghost predicate TaskOk(s: Ledger) {
    match s.task
    case NoTask => !s.consumerRef && (s.consumer == NotStarted || (s.consumer == ExitedError && HasFailed(s.b)))
    case Fresh => s.consumer == ConsumerRunning && s.consumerRef && s.writing.None? && s.b.torn == 0
    case Ready => s.consumer == ConsumerRunning && s.consumerRef && s.writing.None?
    case Idle => s.consumer == ConsumerRunning && s.consumerRef && s.writing.None?
    case Appending(n) =>
      && s.consumer == ConsumerRunning && s.consumerRef
      && n == s.b.persisted + 1 <= s.b.admittedHigh && s.writing == Some(n)
      && s.inFlight == (if s.b.admitted == [] then None else Some(n))
    case Done(cancelled) =>
      && s.consumer != NotStarted
      && (s.consumer == ConsumerRunning ==> cancelled && s.b.torn == 0 && s.writing.None?)
      && (s.consumer != ConsumerRunning ==> s.b.admitted == [])
      && (s.consumer == ExitedError || s.consumer == ExitedFailureDrain ==> HasFailed(s.b))
      && (s.consumer == ExitedCloseStop ==>
            s.b.persisted == s.b.accepted && s.b.torn == 0 && s.writing.None? && !s.stop)
  }

  ghost predicate ConsumerOk(s: Ledger) {
    && TaskOk(s)
    && (HasFailed(s.b) <==> s.state == Failing || s.state == ClosedFailed)
    && (s.writing.Some? ==> s.writing.value == s.b.persisted + 1 <= s.b.admittedHigh)
    && (s.b.torn > 0 || s.writing.Some? ==> s.task.Appending? || (HasFailed(s.b) && s.b.admitted == []))
    && (s.doneSeen ==> s.task.Done? && s.consumer != ConsumerRunning)
    && (s.inFlight.Some? ==> s.task.Appending? && s.b.admitted != [])
    && (s.consumer == NotStarted ==> s.task == NoTask)
    && (s.state == New ==> s.consumer == NotStarted)
    && (s.state == Running ==> s.consumer == ConsumerRunning)
    && (s.state == Closing ==>
          s.consumer == NotStarted || s.consumer == ConsumerRunning || s.consumer == ExitedCloseStop)
    && (s.drain ==> HasFailed(s.b))
  }

  ghost predicate CloseTaskOk(s: Ledger) {
    match s.close
    case NoClose => s.state == New || s.state == Running || s.state == Failing
    case CloseWaiting => s.consumerRef && s.task != NoTask
    case CloseJoining =>
      && s.consumerRef && s.task != NoTask && s.b.pending == []
      && (HasFailed(s.b) || s.stop || s.consumer == ExitedCloseStop)
    case CloseDone(ClosedWell) =>
      && s.b.persisted == s.b.accepted && s.b.torn == 0 && s.writing.None?
      && (s.task == NoTask || s.task.Done?) && s.consumer != ConsumerRunning
    case CloseDone(ClosedWith(k)) =>
      && HasFailed(s.b) && s.b.admitted == []
      && (s.task == NoTask || s.task.Done?) && s.consumer != ConsumerRunning
    case _ => true
  }

  ghost predicate CloseOk(s: Ledger) {
    && CloseTaskOk(s)
    && (s.close != NoClose ==> s.state != New && s.state != Running)
    && (s.state == Closing ==> !s.close.CloseDone? || s.close.result == CloseCancelled)
    && (s.state == ClosedOk ==> s.close == CloseDone(ClosedWell))
    && (s.stop ==> s.state == Closing && s.b.pending == []
                   && (s.close == CloseJoining || s.close == CloseDone(CloseCancelled)))
    && (s.consumer == ExitedCloseStop ==> s.close == CloseJoining || s.close.CloseDone?)
    && (s.cached == Succeeded ==> s.close == CloseDone(ClosedWell))
    && (s.cached.FailedWith? ==> s.close.CloseDone? && s.close.result != ClosedWell && HasFailed(s.b))
    && (s.task.Done? && !s.consumerRef ==> s.close.CloseDone? && s.close.result != CloseCancelled)
  }

  /** No lost wakeup: a suspended consumer that has something to do has been signalled. */
  ghost predicate WakeupOk(s: Ledger) {
    s.task == Idle && Peek(s) != Wait ==> s.wakeup
  }

  ghost predicate Control(s: Ledger) {
    ConsumerOk(s) && CloseOk(s) && WakeupOk(s)
  }

  /** Between steps: a waiting head has no room, its timer is armed, and the emptiness signal is up to date. */
  ghost predicate Quiet(e: Env, s: Ledger) {
    && (s.b.pending == [] ==> s.pendingEmpty)
    && (Open(s) && HasHead(s.b) ==> !Room(e, s.b, Head(s.b).nbytes) && s.timer == Some(Head(s.b).deadline))
  }

  ghost predicate Inv(e: Env, s: Ledger) { Balanced(e, s.b) && Control(s) && Quiet(e, s) }

  lemma InitialInv(e: Env)
    requires ValidEnv(e)
    ensures Inv(e, Initial)
  {
    TierBounds(e.tiers, 0);
  }
}
