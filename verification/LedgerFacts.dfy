/** The operations on the books keep them balanced. */
module LedgerFacts {
  import opened Wrappers
  import opened QueuePolicy
  import opened Ledger
  import opened LedgerInvariant

  lemma InRange(lo: nat, hi: nat, n: nat)
    requires lo <= hi
    ensures n in Range(lo, hi) <==> lo < n <= hi
  {
    if lo < n <= hi { assert Range(lo, hi)[n - lo - 1] == n; }
  }

  lemma RangeTail(lo: nat, hi: nat)
    requires lo < hi
    ensures Range(lo, hi)[0] == lo + 1 && Range(lo, hi)[1..] == Range(lo + 1, hi)
  {}

  lemma RangeExtend(lo: nat, hi: nat)
    requires lo <= hi
    ensures Range(lo, hi) + [hi + 1] == Range(lo, hi + 1)
  {}

  ghost predicate SameCharges(a: seq<Ticket>, b: seq<Ticket>) {
    |a| <= |b| && forall i :: 0 <= i < |a| ==> a[i].nbytes == b[i].nbytes && a[i].wire == b[i].wire
  }

  lemma {:induction false} BytesSame(a: seq<Ticket>, b: seq<Ticket>, ids: seq<nat>)
    requires SameCharges(a, b) && Known(a, ids)
    ensures Known(b, ids) && Bytes(a, ids) == Bytes(b, ids)
  {
    if ids != [] { BytesSame(a, b, ids[1..]); }
  }

  lemma {:induction false} BytesSnoc(tickets: seq<Ticket>, ids: seq<nat>, n: nat)
    requires Known(tickets, ids) && 1 <= n <= |tickets|
    ensures Bytes(tickets, ids + [n]) == Bytes(tickets, ids) + tickets[n - 1].nbytes
  {
    if ids != [] {
      assert (ids + [n])[1..] == ids[1..] + [n];
      BytesSnoc(tickets, ids[1..], n);
    }
  }

  lemma {:induction false} LinesSame(a: seq<Ticket>, b: seq<Ticket>, n: nat)
    requires SameCharges(a, b) && n <= |a|
    ensures Lines(a, n) == Lines(b, n)
  {
    if n > 0 { LinesSame(a, b, n - 1); }
  }

  lemma {:induction false} DecimalLength(n: nat, digits: nat)
    requires digits >= 1 && n < Pow(10, digits)
    ensures |Decimal(n)| <= digits
  {
    if n >= 10 {
      assert digits > 1;
      assert n / 10 < Pow(10, digits - 1);
      DecimalLength(n / 10, digits - 1);
    }
  }

  /** The marker that replaces an oversized record always fits the smallest legal event limit. */
  lemma MarkerFits(n: nat, kind: Option<string>)
    requires n <= MAX_EVENTS_MAX + 1
    ensures |MarkerLine(n, kind)| <= MAX_EVENT_BYTES_MIN
  {
    DecimalLength(n, 7);
  }

  // ---- what only the identity of the tickets decides ---------------------

  /** The same tickets up to their state and phases. */
  ghost predicate SameIdentity(a: seq<Ticket>, b: seq<Ticket>) {
    && |a| == |b|
    && forall i :: 0 <= i < |a| ==>
         && a[i].seqNo == b[i].seqNo && a[i].wire == b[i].wire && a[i].nbytes == b[i].nbytes
         && a[i].deadline == b[i].deadline && a[i].acceptRead == b[i].acceptRead && a[i].admitRead == b[i].admitRead
  }

  lemma IdentityKeeps(e: Env, b: Books, b': Books)
    requires Counts(b) && Times(e, b) && FileOk(b) && SameIdentity(b.tickets, b'.tickets)
    requires b'.persisted == b.persisted && b'.admittedHigh == b.admittedHigh && b'.accepted == b.accepted
    requires b'.ticks >= b.ticks && b'.lastDeadline == b.lastDeadline && b'.file == b.file && b'.torn == b.torn
    ensures Counts(b') && Times(e, b') && FileOk(b')
    ensures Lines(b'.tickets, b.persisted) == Lines(b.tickets, b.persisted)
  {
    assert SameCharges(b.tickets, b'.tickets);
    LinesSame(b.tickets, b'.tickets, b.persisted);
    forall i: nat | i < |b'.tickets| ensures TimeOk(e, b', i) { assert TimeOk(e, b, i); }
  }

  // ---- the failure funnel ------------------------------------------------

  lemma FailTicketsIdentity(tickets: seq<Ticket>, pending: seq<nat>, admitted: seq<nat>, code: Code,
      victim: Option<nat>)
    ensures SameIdentity(tickets, FailTickets(tickets, pending, admitted, code, victim))
  {}

  lemma PoisonPhases(b: Books, key: Key, victim: Option<nat>, cannotPersist: bool)
    requires Counts(b) && Queues(b) && Phases(b)
    ensures Phases(PoisonBooks(b, key, victim, cannotPersist))
  {
    var b' := PoisonBooks(b, key, victim, cannotPersist);
    forall i: nat | i < |b.tickets| ensures PhaseOk(b', i) {
      assert PhaseOk(b, i);
      InRange(b.persisted, b.admittedHigh, i + 1);
      InRange(b.admittedHigh, b.accepted, i + 1);
    }
  }

  lemma RankInjective(a: Code, b: Code)
    ensures Rank(a) == Rank(b) ==> a == b
  {}

  /** The recorded failure stays the least one ever raised. */
  lemma PoisonFailures(b: Books, key: Key, victim: Option<nat>, cannotPersist: bool)
    requires Failures(b)
    ensures Failures(PoisonBooks(b, key, victim, cannotPersist))
  {
    var least := if b.primary.None? || Less(key, b.primary.value) then key else b.primary.value;
    forall x | x in b.raised + [key] ensures least == x || Less(least, x) {
      if x == key && least != key { RankInjective(key.code, least.code); }
    }
  }

  lemma PoisonCeilings(e: Env, b: Books, b': Books)
    requires ValidTiers(e.tiers) && Counts(b) && Queues(b) && Ceilings(e, b) && Counts(b') && Queues(b')
    requires b'.pending == [] && b'.pendingBytes == 0 && b'.tier == b.tier && b'.growthMark == b.growthMark
    requires b'.persisted == b.persisted && b'.persistedBytes == b.persistedBytes && b'.accepted == b.accepted
    requires SameIdentity(b.tickets, b'.tickets)
    requires (b'.admitted == b.admitted && b'.queuedBytes == b.queuedBytes)
        || (b'.admitted == [] && b'.queuedBytes == 0)
    ensures Ceilings(e, b')
  {
    assert SameCharges(b.tickets, b'.tickets);
    BytesSame(b.tickets, b'.tickets, b'.admitted);
    LinesSame(b.tickets, b'.tickets, b.persisted);
    TierBounds(e.tiers, b.tier);
  }

  lemma PoisonBalanced(e: Env, b: Books, key: Key, victim: Option<nat>, cannotPersist: bool)
    requires Balanced(e, b)
    ensures Balanced(e, PoisonBooks(b, key, victim, cannotPersist))
  {
    var b' := PoisonBooks(b, key, victim, cannotPersist);
    FailTicketsIdentity(b.tickets, b.pending, if cannotPersist then b.admitted else [], key.code, victim);
    IdentityKeeps(e, b, b');
    PoisonPhases(b, key, victim, cannotPersist);
    PoisonFailures(b, key, victim, cannotPersist);
    PoisonCeilings(e, b, b');
  }

  // ---- clock, growth, admission ------------------------------------------

  lemma TickBalanced(e: Env, b: Books)
    requires Balanced(e, b)
    ensures Balanced(e, Tick(b))
  {
    IdentityKeeps(e, b, Tick(b));
    forall i: nat | i < |b.tickets| ensures PhaseOk(Tick(b), i) { assert PhaseOk(b, i); }
  }

  lemma GrowBalanced(e: Env, b: Books)
    requires Balanced(e, b) && b.tier < |e.tiers.capacities| - 1 && b.persisted > b.growthMark
    ensures Balanced(e, Grow(b))
  {
    TierBounds(e.tiers, b.tier);
    IdentityKeeps(e, b, Grow(b));
    forall i: nat | i < |b.tickets| ensures PhaseOk(Grow(b), i) { assert PhaseOk(b, i); }
  }

  lemma HeadIsNext(b: Books)
    requires Counts(b) && Queues(b) && b.pending != []
    ensures !HasFailed(b) && b.admittedHigh < b.accepted && b.pending[0] == b.admittedHigh + 1 && HasHead(b)
    ensures b.pending[1..] == Range(b.admittedHigh + 1, b.accepted)
    ensures b.admitted + [b.pending[0]] == Range(b.persisted, b.admittedHigh + 1)
  {
    RangeTail(b.admittedHigh, b.accepted);
    RangeExtend(b.persisted, b.admittedHigh);
  }

  lemma AdmitCeilings(e: Env, b: Books, read: nat)
    requires Balanced(e, b) && HasHead(b) && Room(e, b, Head(b).nbytes)
    ensures Counts(AdmitHead(b, read)) && Queues(AdmitHead(b, read)) && Ceilings(e, AdmitHead(b, read))
    ensures FileOk(AdmitHead(b, read))
  {
    HeadIsNext(b);
    var b' := AdmitHead(b, read);
    assert SameCharges(b.tickets, b'.tickets);
    BytesSame(b.tickets, b'.tickets, b.pending);
    BytesSame(b.tickets, b'.tickets, b.admitted);
    BytesSnoc(b'.tickets, b.admitted, b.pending[0]);
    LinesSame(b.tickets, b'.tickets, b.persisted);
  }

  lemma AdmitPhases(e: Env, b: Books, read: nat)
    requires Counts(b) && Queues(b) && Phases(b) && Times(e, b) && HasHead(b)
    requires e.clock(read).Some? && e.clock(read).value < Head(b).deadline
    ensures Phases(AdmitHead(b, read)) && Times(e, AdmitHead(b, read))
  {
    HeadIsNext(b);
    var b' := AdmitHead(b, read);
    forall i: nat | i < |b'.tickets| ensures PhaseOk(b', i) { assert PhaseOk(b, i); }
    forall i: nat | i < |b'.tickets| ensures TimeOk(e, b', i) { assert TimeOk(e, b, i); }
  }

  lemma AdmitBalanced(e: Env, b: Books, read: nat)
    requires Balanced(e, b) && HasHead(b) && Room(e, b, Head(b).nbytes)
    requires e.clock(read).Some? && e.clock(read).value < Head(b).deadline
    ensures Balanced(e, AdmitHead(b, read))
  {
    AdmitCeilings(e, b, read);
    AdmitPhases(e, b, read);
  }

  // ---- acceptance, acknowledgement, the file -----------------------------

  ghost predicate MayCommit(e: Env, b: Books, wire: string, deadline: real, read: nat) {
    && Balanced(e, b) && !HasFailed(b)
    && |wire| <= e.maxEventBytes
    && b.accepted < e.maxEvents
    && |b.pending| < e.tiers.policy.maxEventCapacity
    && b.pendingBytes + b.queuedBytes + |wire| <= e.tiers.policy.maxQueuedBytes
    && read + 1 == b.ticks && e.clock(read).Some?
    && deadline == e.clock(read).value + e.tiers.policy.producerTimeout
    && (forall i :: 0 <= i < |b.tickets| ==> b.tickets[i].acceptRead < read)
  }

  lemma CommitQueues(e: Env, b: Books, wire: string, deadline: real, read: nat)
    requires MayCommit(e, b, wire, deadline, read)
    ensures var b' := Commit(b, wire, deadline, read); Counts(b') && Queues(b') && FileOk(b')
    ensures SameCharges(b.tickets, Commit(b, wire, deadline, read).tickets)
  {
    var b' := Commit(b, wire, deadline, read);
    RangeExtend(b.admittedHigh, b.accepted);
    assert SameCharges(b.tickets, b'.tickets);
    LinesSame(b.tickets, b'.tickets, b.persisted);
  }

  lemma CommitCeilings(e: Env, b: Books, wire: string, deadline: real, read: nat)
    requires MayCommit(e, b, wire, deadline, read)
    ensures var b' := Commit(b, wire, deadline, read); Counts(b') && Queues(b') && FileOk(b') && Ceilings(e, b')
  {
    hide FileOk, Phases, Times, Failures, Lines, Bytes;
    var b' := Commit(b, wire, deadline, read);
    CommitQueues(e, b, wire, deadline, read);
    BytesSame(b.tickets, b'.tickets, b.pending);
    BytesSame(b.tickets, b'.tickets, b.admitted);
    BytesSnoc(b'.tickets, b.pending, b'.accepted);
    LinesSame(b.tickets, b'.tickets, b.persisted);
  }

  lemma CommitBalanced(e: Env, b: Books, wire: string, deadline: real, read: nat)
    requires MayCommit(e, b, wire, deadline, read)
    ensures Balanced(e, Commit(b, wire, deadline, read))
  {
    var b' := Commit(b, wire, deadline, read);
    CommitCeilings(e, b, wire, deadline, read);
    forall i: nat | i < |b'.tickets| ensures PhaseOk(b', i) {
      if i < |b.tickets| { assert PhaseOk(b, i); }
    }
    forall i: nat | i < |b'.tickets| ensures TimeOk(e, b', i) {
      if i < |b.tickets| { assert TimeOk(e, b, i); }
    }
  }

  ghost predicate MayAck(b: Books)
    requires Counts(b)
  {
    b.admitted != [] && b.persisted < b.admittedHigh && b.torn == |b.tickets[b.persisted].wire|
  }

  lemma AckIsNext(b: Books)
    requires Counts(b) && Queues(b) && b.admitted != []
    ensures b.persisted < b.admittedHigh && b.admitted[0] == b.persisted + 1
    ensures b.admitted[1..] == Range(b.persisted + 1, b.admittedHigh)
  {
    RangeTail(b.persisted, b.admittedHigh);
  }

  lemma AckCeilings(e: Env, b: Books)
    requires Balanced(e, b) && MayAck(b) && b.admitted != [] && 1 <= b.admitted[0] <= |b.tickets|
    ensures Counts(AckHead(b)) && Queues(AckHead(b)) && Ceilings(e, AckHead(b)) && FileOk(AckHead(b))
  {
    AckIsNext(b);
    var b' := AckHead(b);
    assert SameCharges(b.tickets, b'.tickets);
    BytesSame(b.tickets, b'.tickets, b.pending);
    BytesSame(b.tickets, b'.tickets, b.admitted);
    LinesSame(b.tickets, b'.tickets, b.persisted);
    assert Lines(b'.tickets, b'.persisted) == Lines(b.tickets, b.persisted) + b.tickets[b.persisted].wire;
    if b.torn > 0 { assert b.tickets[b.persisted].wire[..b.torn] == b.tickets[b.persisted].wire; }
  }

  lemma AckBalanced(e: Env, b: Books)
    requires Balanced(e, b) && MayAck(b) && b.admitted != [] && 1 <= b.admitted[0] <= |b.tickets|
    ensures Balanced(e, AckHead(b))
  {
    AckIsNext(b);
    AckCeilings(e, b);
    var b' := AckHead(b);
    forall i: nat | i < |b'.tickets| ensures PhaseOk(b', i) { assert PhaseOk(b, i); }
    forall i: nat | i < |b'.tickets| ensures TimeOk(e, b', i) { assert TimeOk(e, b, i); }
  }

  lemma WriteBalanced(e: Env, b: Books, n: nat)
    requires Balanced(e, b) && b.persisted < b.admittedHigh && b.torn <= |b.tickets[b.persisted].wire|
    ensures Balanced(e, WriteBytes(b, b.tickets[b.persisted].wire, n))
  {
    var line := b.tickets[b.persisted].wire;
    var b' := WriteBytes(b, line, n);
    assert line[..b'.torn] == line[..b.torn] + line[b.torn..b'.torn];
    forall i: nat | i < |b'.tickets| ensures PhaseOk(b', i) { assert PhaseOk(b, i); }
    forall i: nat | i < |b'.tickets| ensures TimeOk(e, b', i) { assert TimeOk(e, b, i); }
  }
}
