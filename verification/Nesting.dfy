/** The iterative nesting check on JSON values, against depth and number of containers. */
module Nesting {
  const MAX_JSON_NESTING_DEPTH: nat := 64
  const MAX_FRAME_BYTES: nat := 1_048_576
  const MAX_CONTAINERS: nat := MAX_FRAME_BYTES / 2

  /** A value, with the rendered text of scalars and keys. */
  datatype Json = Scalar(text: string) | List(items: seq<Json>) | Object(keys: seq<string>, values: seq<Json>)

  function Children(t: Json): (cs: seq<Json>)
    ensures t.Scalar? ==> cs == []
  {
    match t
    case Scalar(_) => []
    case List(items) => items
    case Object(_, values) => values
  }

  /** How many containers deep. */
  function Depth(t: Json): nat
    decreases t
  {
    match t
    case Scalar(_) => 0
    case List(items) => 1 + Deepest(items)
    case Object(_, values) => 1 + Deepest(values)
  }

  function Deepest(ts: seq<Json>): nat
    decreases ts
  {
    if ts == [] then 0 else if Depth(ts[0]) > Deepest(ts[1..]) then Depth(ts[0]) else Deepest(ts[1..])
  }

  /** How many containers in all. */
  function Count(t: Json): nat
    decreases t
  {
    match t
    case Scalar(_) => 0
    case List(items) => 1 + CountAll(items)
    case Object(_, values) => 1 + CountAll(values)
  }

  function CountAll(ts: seq<Json>): nat
    decreases ts
  {
    if ts == [] then 0 else Count(ts[0]) + CountAll(ts[1..])
  }

  lemma Unfold(t: Json)
    requires !t.Scalar?
    ensures Depth(t) == 1 + Deepest(Children(t)) && Count(t) == 1 + CountAll(Children(t))
  {
  }

  // ---- the stack -------------------------------------------------------------------

  /** Containers reachable from the stack. */
  function Pending(stack: seq<(Json, nat)>): nat {
    if stack == [] then 0 else Pending(stack[..|stack| - 1]) + Count(stack[|stack| - 1].0)
  }

  /** Something on the stack reaches below the bound. */
  predicate TooDeep(stack: seq<(Json, nat)>) {
    if stack == [] then false
    else
      var (node, depth) := stack[|stack| - 1];
      TooDeep(stack[..|stack| - 1]) || depth + Depth(node) > MAX_JSON_NESTING_DEPTH + 1
  }

  predicate Containers(stack: seq<(Json, nat)>) {
    forall i :: 0 <= i < |stack| ==> !stack[i].0.Scalar? && stack[i].1 > 0
  }

  lemma Push(stack: seq<(Json, nat)>, t: Json, depth: nat)
    ensures Pending(stack + [(t, depth)]) == Pending(stack) + Count(t)
    ensures TooDeep(stack + [(t, depth)]) <==> TooDeep(stack) || depth + Depth(t) > MAX_JSON_NESTING_DEPTH + 1
  {
    assert (stack + [(t, depth)])[..|stack|] == stack;
  }

  lemma SplitHead(ts: seq<Json>, k: nat)
    requires k < |ts|
    ensures CountAll(ts[k..]) == Count(ts[k]) + CountAll(ts[k + 1..])
    ensures Deepest(ts[k..]) == if Depth(ts[k]) > Deepest(ts[k + 1..]) then Depth(ts[k]) else Deepest(ts[k + 1..])
  {
    assert ts[k..][0] == ts[k] && ts[k..][1..] == ts[k + 1..];
  }

  /** Pushes the containers among the children; scalars hold none and reach no deeper than where they stand. */
  method PushChildren(stack0: seq<(Json, nat)>, children: seq<Json>, depth: nat) returns (stack: seq<(Json, nat)>)
    requires Containers(stack0) && 0 < depth <= MAX_JSON_NESTING_DEPTH
    ensures Containers(stack)
    ensures Pending(stack) == Pending(stack0) + CountAll(children)
    ensures TooDeep(stack) <==> TooDeep(stack0) || depth + Deepest(children) > MAX_JSON_NESTING_DEPTH
  {
    stack := stack0;
    assert children[0..] == children;
    for k := 0 to |children|
      invariant Containers(stack)
      invariant Pending(stack) + CountAll(children[k..]) == Pending(stack0) + CountAll(children)
      invariant TooDeep(stack) || depth + Deepest(children[k..]) > MAX_JSON_NESTING_DEPTH
        <==> TooDeep(stack0) || depth + Deepest(children) > MAX_JSON_NESTING_DEPTH
    {
      SplitHead(children, k);
      if !children[k].Scalar? {
        Push(stack, children[k], depth + 1);
        stack := stack + [(children[k], depth + 1)];
      }
    }
  }

  /** The walk says yes exactly when the value is too deep or holds too many containers. */
  method NestingExceedsBound(value: Json) returns (r: bool)
    ensures r <==> Depth(value) > MAX_JSON_NESTING_DEPTH || Count(value) > MAX_CONTAINERS
  {
    hide Depth, Count, Deepest, CountAll;
    if value.Scalar? {
      ScalarHoldsNone(value);
      return false;
    }
    var stack: seq<(Json, nat)> := [(value, 1)];
    Push([], value, 1);
    assert [] + [(value, 1)] == stack;
    var visited: nat := 0;
    while stack != []
      invariant Containers(stack) && visited <= MAX_CONTAINERS
      invariant visited + Pending(stack) == Count(value)
      invariant TooDeep(stack) <==> Depth(value) > MAX_JSON_NESTING_DEPTH
      decreases Pending(stack)
    {
      var top := stack[|stack| - 1];
      var rest := stack[..|stack| - 1];
      assert stack == rest + [top];
      Push(rest, top.0, top.1);
      Unfold(top.0);
      stack := rest;
      if top.1 > MAX_JSON_NESTING_DEPTH {
        return true;
      }
      visited := visited + 1;
      if visited > MAX_CONTAINERS {
        return true;
      }
      stack := PushChildren(stack, Children(top.0), top.1);
    }
    return false;
  }

  lemma ScalarHoldsNone(t: Json)
    requires t.Scalar?
    ensures Depth(t) == 0 && Count(t) == 0
  {
  }

  // ---- what fits a frame -----------------------------------------------------------

  function Render(t: Json): string
    decreases t
  {
    match t
    case Scalar(text) => text
    case List(items) => "[" + RenderItems(items) + "]"
    case Object(keys, values) => "{" + RenderMembers(keys, values) + "}"
  }

  function RenderItems(ts: seq<Json>): string
    decreases ts
  {
    if ts == [] then "" else Render(ts[0]) + (if |ts| > 1 then "," else "") + RenderItems(ts[1..])
  }

  function RenderMembers(keys: seq<string>, ts: seq<Json>): string
    decreases ts
  {
    if ts == [] then ""
    else
      (if keys == [] then "" else keys[0]) + ":" + Render(ts[0]) + (if |ts| > 1 then "," else "")
      + RenderMembers(if keys == [] then [] else keys[1..], ts[1..])
  }

  /** Each container costs at least its two brackets. */
  lemma {:induction false} BracketsCount(t: Json)
    ensures |Render(t)| >= 2 * Count(t)
    decreases t
  {
    match t
    case Scalar(_) =>
    case List(items) => ItemsCount(items);
    case Object(keys, values) => MembersCount(keys, values);
  }

  lemma {:induction false} ItemsCount(ts: seq<Json>)
    ensures |RenderItems(ts)| >= 2 * CountAll(ts)
    decreases ts
  {
    if ts != [] {
      BracketsCount(ts[0]);
      ItemsCount(ts[1..]);
    }
  }

  lemma {:induction false} MembersCount(keys: seq<string>, ts: seq<Json>)
    ensures |RenderMembers(keys, ts)| >= 2 * CountAll(ts)
    decreases ts
  {
    if ts != [] {
      BracketsCount(ts[0]);
      MembersCount(if keys == [] then [] else keys[1..], ts[1..]);
    }
  }

  /** A value that fits one frame never exhausts the visit budget: for it the check is on depth alone. */
  lemma FrameWithinBudget(t: Json)
    requires |Render(t)| <= MAX_FRAME_BYTES
    ensures Count(t) <= MAX_CONTAINERS
  {
    BracketsCount(t);
  }
}
