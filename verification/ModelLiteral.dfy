/** The parameterized model literal, `base[id=value,...]`: its printer, its parser, and their two round trips. */
module ModelLiteral {
  import opened Wrappers

  datatype Model = Model(base: string, parameters: seq<(string, string)>)

  const OPEN := '['
  const CLOSE := ']'
  const COMMA := ','
  const ASSIGN := '='

  // ---- the printer -----------------------------------------------------------------

  function Assignment(p: (string, string)): string {
    p.0 + [ASSIGN] + p.1
  }

  function Join(parts: seq<string>, c: char): string {
    if parts == [] then "" else if |parts| == 1 then parts[0] else parts[0] + [c] + Join(parts[1..], c)
  }

  function Assignments(ps: seq<(string, string)>): seq<string> {
    seq(|ps|, i requires 0 <= i < |ps| => Assignment(ps[i]))
  }

  function Compose(m: Model): string {
    if m.parameters == [] then m.base
    else m.base + [OPEN] + Join(Assignments(m.parameters), COMMA) + [CLOSE]
  }

  // ---- what a literal may say ------------------------------------------------------

  predicate Plain(s: string) {
    s != "" && OPEN !in s && CLOSE !in s && COMMA !in s && ASSIGN !in s
  }

  predicate Named(ps: seq<(string, string)>) {
    && (forall i :: 0 <= i < |ps| ==> Plain(ps[i].0) && Plain(ps[i].1))
    && (forall i, j :: 0 <= i < j < |ps| ==> ps[i].0 != ps[j].0)
  }

  /** A base may contain commas and equals signs; only brackets are kept out of it. */
  predicate WellFormed(m: Model) {
    m.base != "" && OPEN !in m.base && CLOSE !in m.base && Named(m.parameters)
  }

  // ---- the parser ------------------------------------------------------------------

  /** The first place of `c`, or the length where there is none. */
  function IndexOf(s: string, c: char): (i: nat)
    ensures i <= |s| && c !in s[..i] && (i < |s| ==> s[i] == c)
  {
    if s == "" then 0 else if s[0] == c then 0
    else
      var i := 1 + IndexOf(s[1..], c);
      assert s[..i] == [s[0]] + s[1..][..i - 1];
      i
  }

  function Split(s: string, c: char): seq<string>
    decreases |s|
  {
    var i := IndexOf(s, c);
    if i == |s| then [s] else [s[..i]] + Split(s[i + 1..], c)
  }

  function ParseAssignment(a: string): Option<(string, string)> {
    var i := IndexOf(a, ASSIGN);
    if i == |a| then None
    else if Plain(a[..i]) && Plain(a[i + 1..]) then Some((a[..i], a[i + 1..]))
    else None
  }

  /** Every assignment from the `k`th on, none naming what an earlier one named. */
  function ParseFrom(parts: seq<string>, k: nat, seen: set<string>): Option<seq<(string, string)>>
    requires k <= |parts|
    decreases |parts| - k
  {
    if k == |parts| then Some([])
    else
      var p := ParseAssignment(parts[k]);
      if p.None? || p.value.0 in seen then None
      else
        var rest := ParseFrom(parts, k + 1, seen + {p.value.0});
        if rest.None? then None else Some([p.value] + rest.value)
  }

  function Parse(literal: string): Option<Model> {
    var i := IndexOf(literal, OPEN);
    if i == |literal| then
      if literal == "" || CLOSE in literal then None else Some(Model(literal, []))
    else if literal[|literal| - 1] != CLOSE then None
    else
      var base, body := literal[..i], literal[i + 1..|literal| - 1];
      if base == "" || CLOSE in base || body == "" then None
      else
        var ps := ParseFrom(Split(body, COMMA), 0, {});
        if ps.None? then None else Some(Model(base, ps.value))
  }

  /** The pass over the assignments, with the names seen so far. */
  method ParseAll(parts: seq<string>) returns (r: Option<seq<(string, string)>>)
    ensures r == ParseFrom(parts, 0, {})
  {
    var parameters: seq<(string, string)>, seen := [], {};
    ghost var whole := ParseFrom(parts, 0, {});
    assert whole.Some? ==> [] + whole.value == whole.value;
    var k := 0;
    while k < |parts|
      invariant 0 <= k <= |parts|
      invariant var rest := ParseFrom(parts, k, seen);
        if rest.None? then whole.None? else whole == Some(parameters + rest.value)
    {
      var p := ParseAssignment(parts[k]);
      if p.None? || p.value.0 in seen {
        return None;
      }
      ghost var rest := ParseFrom(parts, k + 1, seen + {p.value.0});
      if rest.Some? {
        assert parameters + ([p.value] + rest.value) == parameters + [p.value] + rest.value;
      }
      parameters := parameters + [p.value];
      seen := seen + {p.value.0};
      k := k + 1;
    }
    assert parameters + [] == parameters;
    return Some(parameters);
  }

  /** The parser as it runs. */
  method ParseLiteral(literal: string) returns (r: Option<Model>)
    ensures r == Parse(literal)
    ensures r.Some? <==> exists m :: WellFormed(m) && Compose(m) == literal
    ensures r.Some? ==> WellFormed(r.value) && Compose(r.value) == literal
  {
    hide WellFormed, Compose, Split, ParseFrom;
    ParseExactly(literal);
    if literal == "" {
      return None;
    }
    var open := IndexOf(literal, OPEN);
    if open == |literal| {
      return if CLOSE in literal then None else Some(Model(literal, []));
    }
    if literal[|literal| - 1] != CLOSE {
      return None;
    }
    var base, body := literal[..open], literal[open + 1..|literal| - 1];
    if base == "" || CLOSE in base {
      return None;
    }
    if body == "" {
      return None;
    }
    var parameters := ParseAll(Split(body, COMMA));
    return if parameters.None? then None else Some(Model(base, parameters.value));
  }

  // ---- splitting undoes joining ----------------------------------------------------

  /** The index of `c` in a string that has `c` right after a stretch without it. */
  lemma IndexAfter(a: string, c: char, b: string)
    requires c !in a
    ensures IndexOf(a + [c] + b, c) == |a|
  {
    var s := a + [c] + b;
    assert s[|a|] == c && forall k :: 0 <= k < |a| ==> s[k] == a[k];
    assert forall k :: 0 <= k < IndexOf(s, c) ==> s[..IndexOf(s, c)][k] == s[k];
  }

  lemma IndexNone(a: string, c: char)
    requires c !in a
    ensures IndexOf(a, c) == |a|
  {
  }

  lemma {:induction false} SplitJoin(parts: seq<string>, c: char)
    requires parts != [] && (forall i :: 0 <= i < |parts| ==> c !in parts[i])
    ensures Split(Join(parts, c), c) == parts
    decreases |parts|
  {
    if |parts| == 1 {
      IndexNone(parts[0], c);
    } else {
      var rest := Join(parts[1..], c);
      IndexAfter(parts[0], c, rest);
      var s := parts[0] + [c] + rest;
      assert s[..|parts[0]|] == parts[0] && s[|parts[0]| + 1..] == rest;
      SplitJoin(parts[1..], c);
    }
  }

  lemma {:induction false} JoinSplit(s: string, c: char)
    ensures Split(s, c) != [] && Join(Split(s, c), c) == s
    decreases |s|
  {
    var i := IndexOf(s, c);
    if i < |s| {
      JoinSplit(s[i + 1..], c);
      assert ([s[..i]] + Split(s[i + 1..], c))[1..] == Split(s[i + 1..], c);
      assert s == s[..i] + [c] + s[i + 1..];
    }
  }

  lemma AssignmentParses(p: (string, string))
    requires Plain(p.0) && Plain(p.1)
    ensures ParseAssignment(Assignment(p)) == Some(p)
  {
    IndexAfter(p.0, ASSIGN, p.1);
    var a := Assignment(p);
    assert a[..|p.0|] == p.0 && a[|p.0| + 1..] == p.1;
  }

  lemma ParsedAssignment(a: string)
    requires ParseAssignment(a).Some?
    ensures Assignment(ParseAssignment(a).value) == a
    ensures Plain(ParseAssignment(a).value.0) && Plain(ParseAssignment(a).value.1)
  {
    var i := IndexOf(a, ASSIGN);
    assert a == a[..i] + [ASSIGN] + a[i + 1..];
  }

  lemma {:induction false} AllParse(ps: seq<(string, string)>, k: nat, seen: set<string>)
    requires k <= |ps| && Named(ps) && (forall i :: k <= i < |ps| ==> ps[i].0 !in seen)
    ensures ParseFrom(Assignments(ps), k, seen) == Some(ps[k..])
    decreases |ps| - k
  {
    if k < |ps| {
      AssignmentParses(ps[k]);
      AllParse(ps, k + 1, seen + {ps[k].0});
      assert ps[k..] == [ps[k]] + ps[k + 1..];
    }
  }

  lemma {:induction false} AllParsed(parts: seq<string>, k: nat, seen: set<string>)
    requires k <= |parts| && ParseFrom(parts, k, seen).Some?
    ensures var ps := ParseFrom(parts, k, seen).value;
      Assignments(ps) == parts[k..] && Named(ps) && (forall i :: 0 <= i < |ps| ==> ps[i].0 !in seen)
    decreases |parts| - k
  {
    if k < |parts| {
      var p := ParseAssignment(parts[k]).value;
      ParsedAssignment(parts[k]);
      AllParsed(parts, k + 1, seen + {p.0});
      assert parts[k..] == [parts[k]] + parts[k + 1..];
    }
  }

  // ---- the round trips -------------------------------------------------------------

  /** No comma and no closing bracket in an assignment of plain names. */
  lemma AssignmentsPlain(ps: seq<(string, string)>)
    requires Named(ps)
    ensures forall i :: 0 <= i < |ps| ==> COMMA !in Assignments(ps)[i]
  {
  }

  /** Parsing what was composed gives the base and the ordered pairs back. */
  lemma ParseCompose(m: Model)
    requires WellFormed(m)
    ensures Parse(Compose(m)) == Some(m)
  {
    var literal := Compose(m);
    if m.parameters == [] {
      IndexNone(m.base, OPEN);
    } else {
      var body := Join(Assignments(m.parameters), COMMA);
      assert literal == m.base + [OPEN] + (body + [CLOSE]);
      IndexAfter(m.base, OPEN, body + [CLOSE]);
      assert literal[..|m.base|] == m.base && literal[|m.base| + 1..|literal| - 1] == body;
      AssignmentsPlain(m.parameters);
      SplitJoin(Assignments(m.parameters), COMMA);
      AllParse(m.parameters, 0, {});
      assert body != "" by { BodyNotEmpty(m.parameters); }
    }
  }

  lemma BodyNotEmpty(ps: seq<(string, string)>)
    requires ps != []
    ensures Join(Assignments(ps), COMMA) != ""
  {
    assert |Assignments(ps)[0]| > 0;
  }

  lemma BodyParsed(body: string)
    requires ParseFrom(Split(body, COMMA), 0, {}).Some?
    ensures var ps := ParseFrom(Split(body, COMMA), 0, {}).value;
      ps != [] && Named(ps) && Join(Assignments(ps), COMMA) == body
  {
    var parts := Split(body, COMMA);
    JoinSplit(body, COMMA);
    AllParsed(parts, 0, {});
    assert parts[0..] == parts;
  }

  /** Composing what was parsed gives the very literal back. */
  lemma ComposeParse(literal: string)
    requires Parse(literal).Some?
    ensures WellFormed(Parse(literal).value) && Compose(Parse(literal).value) == literal
  {
    hide Split, ParseFrom, Join, Assignments, Named;
    var i := IndexOf(literal, OPEN);
    if i < |literal| {
      var body := literal[i + 1..|literal| - 1];
      BodyParsed(body);
      assert literal == literal[..i] + [OPEN] + body + [CLOSE];
    } else {
      assert Named([]) by { NothingNamed(); }
      assert literal[..i] == literal;
    }
  }

  lemma NothingNamed()
    ensures Named([])
  {
  }

  /** So the parser accepts exactly the literals that some well-formed configuration prints as. */
  lemma ParseExactly(literal: string)
    ensures Parse(literal).Some? <==> exists m :: WellFormed(m) && Compose(m) == literal
    ensures Parse(literal).Some? ==> WellFormed(Parse(literal).value) && Compose(Parse(literal).value) == literal
  {
    if Parse(literal).Some? {
      ComposeParse(literal);
    }
    forall m | WellFormed(m) && Compose(m) == literal
      ensures Parse(literal).Some?
    {
      ParseCompose(m);
    }
  }
}
