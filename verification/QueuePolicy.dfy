/**
 The queue policy of the event writer: two multiplicative ladders of ceilings,
 one for the number of admitted events and one for their bytes, that must be
 climbed together.
 */
module QueuePolicy {
  import opened Wrappers

  function Pow(base: nat, exp: nat): nat {
    if exp == 0 then 1 else base * Pow(base, exp - 1)
  }

  /** `maximum` sits exactly on rung `k` of the ladder that starts at `initial`. */
  ghost predicate OnRung(initial: int, maximum: int, factor: nat, k: nat) {
    maximum == initial * Pow(factor, k)
  }

  /** `rungs` is the whole ladder: rung `i` is `initial * factor^i` and the last one is `maximum`. */
  ghost predicate IsLadder(rungs: seq<int>, initial: int, maximum: int, factor: nat) {
    && |rungs| > 0
    && (forall i :: 0 <= i < |rungs| ==> rungs[i] == initial * Pow(factor, i))
    && rungs[|rungs| - 1] == maximum
  }

  lemma {:induction false} PowPositive(base: nat, exp: nat)
    requires base >= 1
    ensures Pow(base, exp) >= 1
  {
    if exp > 0 {
      PowPositive(base, exp - 1);
      assert base * Pow(base, exp - 1) >= Pow(base, exp - 1);
    }
  }

  lemma Scale(initial: int, factor: nat, k: nat)
    requires initial >= 1 && factor >= 2
    ensures initial * Pow(factor, k + 1) == initial * Pow(factor, k) * factor
    ensures initial * Pow(factor, k + 1) >= initial * Pow(factor, k) + 1
  {
    PowPositive(factor, k);
    var p := Pow(factor, k);
    assert initial * (factor * p) == initial * p * factor;
    assert initial * p >= 1 by { assert initial * p >= p; }
    assert (initial * p) * factor >= (initial * p) * 2;
  }

  /** A later rung is a strictly larger value. */
  lemma {:induction false} RungsGrow(initial: int, factor: nat, j: nat, k: nat)
    requires initial >= 1 && factor >= 2 && j < k
    ensures initial * Pow(factor, j) < initial * Pow(factor, k)
    decreases k - j
  {
    Scale(initial, factor, j);
    if j + 1 < k {
      RungsGrow(initial, factor, j + 1, k);
    }
  }

  /**
   The ladder is built by repeated multiplication and refused when the top rung
   overshoots; it succeeds exactly when the maximum is some power of the factor
   away from the initial value.
   */
  method Ladder(initial: int, maximum: int, factor: nat) returns (r: Option<seq<int>>)
    requires initial >= 1 && factor >= 2
    ensures r.Some? ==> IsLadder(r.value, initial, maximum, factor)
    ensures r.Some? <==> exists k: nat :: OnRung(initial, maximum, factor, k)
  {
    var rungs, value := [initial], initial;
    while value < maximum
      invariant |rungs| > 0 && rungs[|rungs| - 1] == value
      invariant forall i :: 0 <= i < |rungs| ==> rungs[i] == initial * Pow(factor, i)
      invariant forall i: nat :: i < |rungs| - 1 ==> !OnRung(initial, maximum, factor, i)
      decreases maximum - value
    {
      Scale(initial, factor, |rungs| - 1);
      assert !OnRung(initial, maximum, factor, |rungs| - 1);
      value := value * factor;
      rungs := rungs + [value];
    }
    var top := |rungs| - 1;
    if value != maximum {
      forall k: nat ensures !OnRung(initial, maximum, factor, k) {
        if k > top { RungsGrow(initial, factor, top, k); }
      }
      return None;
    }
    assert OnRung(initial, maximum, factor, top);
    return Some(rungs);
  }

  datatype Policy = Policy(
    initialEventCapacity: int,
    maxEventCapacity: int,
    growthFactor: int,
    initialQueuedBytes: int,
    maxQueuedBytes: int,
    producerTimeout: real)

  /** A policy with its two ladders, as the constructor leaves them. */
  datatype Tiers = Tiers(policy: Policy, capacities: seq<int>, budgets: seq<int>)

  ghost predicate FieldsInRange(p: Policy) {
    && p.initialEventCapacity >= 1 && p.maxEventCapacity >= 1
    && p.initialQueuedBytes >= 1 && p.maxQueuedBytes >= 1
    && p.growthFactor >= 2
    && p.producerTimeout > 0.0
  }

  /** Both maxima lie on the same rung, so one expansion lifts both ceilings. */
  ghost predicate SameRung(p: Policy, k: nat)
    requires p.growthFactor >= 0
  {
    && OnRung(p.initialEventCapacity, p.maxEventCapacity, p.growthFactor, k)
    && OnRung(p.initialQueuedBytes, p.maxQueuedBytes, p.growthFactor, k)
  }

  ghost predicate ValidTiers(t: Tiers) {
    && FieldsInRange(t.policy)
    && IsLadder(t.capacities, t.policy.initialEventCapacity, t.policy.maxEventCapacity, t.policy.growthFactor)
    && IsLadder(t.budgets, t.policy.initialQueuedBytes, t.policy.maxQueuedBytes, t.policy.growthFactor)
    && |t.capacities| == |t.budgets|
  }

  /**
   Policy construction: accepted exactly when every field is in range and both
   maxima are reached exactly on the same rung.
   */
  method MakeTiers(p: Policy) returns (r: Option<Tiers>)
    ensures r.Some? ==> r.value.policy == p && ValidTiers(r.value)
    ensures r.Some? <==> FieldsInRange(p) && exists k: nat :: SameRung(p, k)
  {
    if p.initialEventCapacity < 1 || p.maxEventCapacity < 1 || p.initialQueuedBytes < 1
       || p.maxQueuedBytes < 1 || p.growthFactor < 2 || p.producerTimeout <= 0.0
    {
      return None;
    }
    if p.maxEventCapacity < p.initialEventCapacity || p.maxQueuedBytes < p.initialQueuedBytes {
      forall k: nat ensures !SameRung(p, k) {
        LadderRises(p.initialEventCapacity, p.growthFactor, k);
        LadderRises(p.initialQueuedBytes, p.growthFactor, k);
      }
      return None;
    }
    var caps := Ladder(p.initialEventCapacity, p.maxEventCapacity, p.growthFactor);
    var budgets := Ladder(p.initialQueuedBytes, p.maxQueuedBytes, p.growthFactor);
    if caps.None? || budgets.None? {
      assert forall k: nat :: !SameRung(p, k);
      return None;
    }
    if |caps.value| != |budgets.value| {
      forall k: nat ensures !SameRung(p, k) {
        if SameRung(p, k) {
          RungUnique(p.initialEventCapacity, p.growthFactor, k, |caps.value| - 1);
          RungUnique(p.initialQueuedBytes, p.growthFactor, k, |budgets.value| - 1);
        }
      }
      return None;
    }
    assert SameRung(p, |caps.value| - 1);
    return Some(Tiers(p, caps.value, budgets.value));
  }

  lemma LadderRises(initial: int, factor: nat, k: nat)
    requires initial >= 1 && factor >= 2
    ensures initial <= initial * Pow(factor, k)
  {
    if k > 0 { RungsGrow(initial, factor, 0, k); }
  }

  lemma RungUnique(initial: int, factor: nat, j: nat, k: nat)
    requires initial >= 1 && factor >= 2
    requires initial * Pow(factor, j) == initial * Pow(factor, k)
    ensures j == k
  {
    if j < k { RungsGrow(initial, factor, j, k); }
    if k < j { RungsGrow(initial, factor, k, j); }
  }

  /** Every tier lies between the initial and the maximal ceiling, on both ladders. */
  lemma TierBounds(t: Tiers, tier: nat)
    requires ValidTiers(t) && tier < |t.capacities|
    ensures 1 <= t.policy.initialEventCapacity <= t.capacities[tier] <= t.policy.maxEventCapacity
    ensures 1 <= t.policy.initialQueuedBytes <= t.budgets[tier] <= t.policy.maxQueuedBytes
    ensures tier + 1 < |t.capacities| ==>
              t.capacities[tier] < t.capacities[tier + 1] && t.budgets[tier] < t.budgets[tier + 1]
  {
    var p := t.policy;
    LadderRises(p.initialEventCapacity, p.growthFactor, tier);
    LadderRises(p.initialQueuedBytes, p.growthFactor, tier);
    if tier + 1 < |t.capacities| {
      RungsGrow(p.initialEventCapacity, p.growthFactor, tier, |t.capacities| - 1);
      RungsGrow(p.initialQueuedBytes, p.growthFactor, tier, |t.budgets| - 1);
      RungsGrow(p.initialEventCapacity, p.growthFactor, tier, tier + 1);
      RungsGrow(p.initialQueuedBytes, p.growthFactor, tier, tier + 1);
    }
  }
}
