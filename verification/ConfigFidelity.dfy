/**
 * The exact-configuration machine and the driver that runs it against an agent which may answer anything. A prompt is
 * released only by the `Verified` phase.
 */
module ConfigFidelity {
  import opened Wrappers
  import opened ModelLiteral

  const NOT_APPLICABLE := "N/A"

  datatype Fidelity = Separate | ModelOnly | Parameterized | OtherMode(name: string)

  datatype Request = Request(fidelity: Fidelity, modelSelector: string, effortSelector: Option<string>,
                             model: string, effort: string, modeSelector: Option<string>, requiredMode: Option<string>)

  /** What an agent reports of one option; a current value need not be a string. */
  datatype Value = Str(s: string) | NotAString

  datatype Choice = Choice(current: Value, select: bool, choices: seq<string>)

  type Options = map<string, Choice>

  datatype Phase =
    | Init | InitialOptions | ModePlanned | PostMode | ModelPlanned | PostModel | EffortPlanned | ParameterPlanned
    | PostParameter | Verified

  /** What a Run asks for, with its literal parsed; fixed for the life of a machine. */
  datatype Plan = Plan(req: Request, parsed: Option<Model>)

  /** `last` is the option set consumed last, kept for the statements about it only. */
  datatype Machine = Machine(p: Plan, phase: Phase, pending: seq<(string, string)>, planned: Option<(string, string)>,
                             initial: Options, postMode: Options, postModel: Options, effective: Option<string>,
                             last: Option<Options>)

  /** A call on the machine: what it is afterwards, and whether the call returned rather than raised. */
  datatype Outcome = Outcome(m: Machine, ok: bool)

  function Whole(f: Fidelity): bool {
    f.ModelOnly? || f.Parameterized?
  }

  predicate PairingOk(req: Request) {
    match req.fidelity
    case OtherMode(_) => false
    case Separate => req.effortSelector.Some? && req.effortSelector.value != ""
    case _ => req.effortSelector.None? && req.effort == NOT_APPLICABLE
  }

  function Parameters(parsed: Option<Model>): seq<(string, string)> {
    if parsed.Some? then parsed.value.parameters else []
  }

  predicate NamesOwned(req: Request, ps: seq<(string, string)>) {
    exists i :: 0 <= i < |ps| && (ps[i].0 == req.modelSelector || Some(ps[i].0) == req.modeSelector)
  }

  function New(req: Request): Option<Machine> {
    if req.modeSelector.None? != req.requiredMode.None? || !PairingOk(req) then None
    else
      var parsed := if req.fidelity.Parameterized? then Parse(req.model) else None;
      if req.fidelity.Parameterized? && (parsed.None? || NamesOwned(req, parsed.value.parameters)) then None
      else Some(Machine(Plan(req, parsed), Init, Parameters(parsed), None, map[], map[], map[], None, None))
  }

  /** The value the model selector is set to: the literal's base where the literal has parameters. */
  function ModelValue(p: Plan): string {
    if p.parsed.Some? then p.parsed.value.base else p.req.model
  }

  // ---- what a set must show --------------------------------------------------------

  predicate Shows(o: Options, id: string, value: string) {
    id in o && o[id].current == Str(value)
  }

  predicate Offers(o: Options, id: string, value: string) {
    id in o && o[id].select && value in o[id].choices
  }

  predicate ModeExact(p: Plan, o: Options) {
    p.req.modeSelector.Some? && p.req.requiredMode.Some? ==>
      Shows(o, p.req.modeSelector.value, p.req.requiredMode.value)
  }

  predicate ModelExact(p: Plan, o: Options) {
    Shows(o, p.req.modelSelector, ModelValue(p))
  }

  predicate Owned(p: Plan, id: string) {
    id == p.req.modelSelector || Some(id) == p.req.modeSelector
  }

  /** Apart from the selectors the machine owns, the set advertises exactly the parameters requested. */
  predicate SameParameters(p: Plan, o: Options) {
    && (forall i :: 0 <= i < |Parameters(p.parsed)| ==> Parameters(p.parsed)[i].0 in o)
    && (forall id :: id in o && !Owned(p, id) ==>
          exists i :: 0 <= i < |Parameters(p.parsed)| && Parameters(p.parsed)[i].0 == id)
  }

  predicate ParametersExact(p: Plan, o: Options) {
    forall i :: 0 <= i < |Parameters(p.parsed)| ==> Shows(o, Parameters(p.parsed)[i].0, Parameters(p.parsed)[i].1)
  }

  // ---- the calls -------------------------------------------------------------------

  function Raises(m: Machine): Outcome {
    Outcome(m, false)
  }

  function RecordInitial(m: Machine, o: Option<Options>): Outcome {
    if m.phase != Init || o.None? then Raises(m)
    else Outcome(m.(initial := o.value, last := o, phase := InitialOptions), true)
  }

  function PlanMode(m: Machine): Outcome {
    if m.p.req.modeSelector.None? || m.p.req.requiredMode.None? || m.phase != InitialOptions then Raises(m)
    else if !Offers(m.initial, m.p.req.modeSelector.value, m.p.req.requiredMode.value) then Raises(m)
    else Outcome(m.(phase := ModePlanned), true)
  }

  function RecordMode(m: Machine, o: Option<Options>): Outcome {
    if m.phase != ModePlanned || o.None? then Raises(m)
    else if !ModeExact(m.p, o.value) then Raises(m.(last := o))
    else Outcome(m.(last := o, postMode := o.value, phase := PostMode), true)
  }

  function PlanModel(m: Machine): Outcome {
    var from := if m.p.req.modeSelector.None? then InitialOptions else PostMode;
    var found := if m.p.req.modeSelector.None? then m.initial else m.postMode;
    if m.phase != from || !Offers(found, m.p.req.modelSelector, ModelValue(m.p)) then Raises(m)
    else Outcome(m.(phase := ModelPlanned), true)
  }

  /** The last readback of a parameterized Run: base, every parameter and the mode, all in one set. */
  function VerifyWhole(m: Machine, o: Options): Outcome {
    if !ModelExact(m.p, o) || !SameParameters(m.p, o) || !ParametersExact(m.p, o) || !ModeExact(m.p, o) then Raises(m)
    else Outcome(m.(effective := Some(Compose(Model(o[m.p.req.modelSelector].current.s, Parameters(m.p.parsed)))),
        phase := Verified), true)
  }

  function RecordModel(m: Machine, o: Option<Options>): Outcome {
    if m.phase != ModelPlanned || o.None? then Raises(m)
    else
      var m1 := m.(last := o);
      if !ModelExact(m.p, o.value) || (Whole(m.p.req.fidelity) && !ModeExact(m.p, o.value)) then Raises(m1)
      else if m.p.req.fidelity.Parameterized? then
        if !SameParameters(m.p, o.value) then Raises(m1)
        else if m.pending != [] then Outcome(m1.(postModel := o.value, phase := PostModel), true)
        else VerifyWhole(m1.(postModel := o.value), o.value)
      else Outcome(m1.(postModel := o.value, phase := if m.p.req.fidelity.ModelOnly? then Verified else PostModel),
          true)
  }

  function PlanParameter(m: Machine): Outcome {
    if !m.p.req.fidelity.Parameterized? || !(m.phase == PostModel || m.phase == PostParameter)
        || m.pending == [] then Raises(m)
    else if !Offers(m.postModel, m.pending[0].0, m.pending[0].1) then Raises(m)
    else Outcome(m.(planned := Some(m.pending[0]), phase := ParameterPlanned), true)
  }

  /** The leg is popped before the final verification, which may then raise and leave nothing planned. */
  function RecordParameter(m: Machine, o: Option<Options>): Outcome {
    if m.phase != ParameterPlanned || m.planned.None? || o.None? || m.pending == [] then Raises(m)
    else
      var m1 := m.(last := o);
      if !ModelExact(m.p, o.value) || !Shows(o.value, m.planned.value.0, m.planned.value.1) then Raises(m1)
      else
        var m2 := m1.(pending := m.pending[1..], planned := None, postModel := o.value);
        if m2.pending != [] then Outcome(m2.(phase := PostParameter), true) else VerifyWhole(m2, o.value)
  }

  function PlanEffort(m: Machine): Outcome {
    if Whole(m.p.req.fidelity) || m.phase != PostModel || m.p.req.effortSelector.None? then Raises(m)
    else if !Offers(m.postModel, m.p.req.effortSelector.value, m.p.req.effort) then Raises(m)
    else Outcome(m.(phase := EffortPlanned), true)
  }

  function RecordEffort(m: Machine, o: Option<Options>): Outcome {
    if Whole(m.p.req.fidelity) || m.phase != EffortPlanned || o.None? || m.p.req.effortSelector.None? then Raises(m)
    else if Shows(o.value, m.p.req.modelSelector, m.p.req.model)
        && Shows(o.value, m.p.req.effortSelector.value, m.p.req.effort)
            && ModeExact(m.p, o.value) then
      Outcome(m.(last := o, phase := Verified), true)
    else Raises(m.(last := o))
  }

  /** The prompt gate. */
  function Ready(m: Machine): Option<(string, string)> {
    if m.phase != Verified then None
    else Some((if m.effective.Some? then m.effective.value else m.p.req.model, m.p.req.effort))
  }

  // ---- arbitrary callers -----------------------------------------------------------

  datatype Call =
    | CallInitial(o: Option<Options>) | CallPlanMode | CallMode(o: Option<Options>) | CallPlanModel
    | CallModel(o: Option<Options>) | CallPlanParameter | CallParameter(o: Option<Options>) | CallPlanEffort
    | CallEffort(o: Option<Options>)

  function Make(m: Machine, call: Call): Outcome {
    match call
    case CallInitial(o) => RecordInitial(m, o)
    case CallPlanMode => PlanMode(m)
    case CallMode(o) => RecordMode(m, o)
    case CallPlanModel => PlanModel(m)
    case CallModel(o) => RecordModel(m, o)
    case CallPlanParameter => PlanParameter(m)
    case CallParameter(o) => RecordParameter(m, o)
    case CallPlanEffort => PlanEffort(m)
    case CallEffort(o) => RecordEffort(m, o)
  }

  /** Calls that raise included. */
  function After(m: Machine, calls: seq<Call>): Machine
    decreases |calls|
  {
    if calls == [] then m else After(Make(m, calls[0]).m, calls[1..])
  }

  /** The whole configuration, as one option set shows it. */
  predicate Exact(p: Plan, o: Options) {
    && ModelExact(p, o) && ModeExact(p, o)
    && (p.req.fidelity.Separate? ==> p.req.effortSelector.Some? && Shows(o, p.req.effortSelector.value, p.req.effort))
    && (p.req.fidelity.Parameterized? ==> ParametersExact(p, o) && SameParameters(p, o))
  }

  predicate Early(phase: Phase) {
    phase == Init || phase == InitialOptions || phase == ModePlanned || phase == PostMode || phase == ModelPlanned
  }

  /** The parameters still to set are the last ones of the request. */
  predicate Remaining(p: Plan, pending: seq<(string, string)>) {
    |pending| <= |Parameters(p.parsed)| && pending == Parameters(p.parsed)[|Parameters(p.parsed)| - |pending|..]
  }

  predicate PlanOk(p: Plan) {
    && PairingOk(p.req) && (p.req.modeSelector.None? <==> p.req.requiredMode.None?)
    && (p.req.fidelity.Parameterized? <==> p.parsed.Some?)
    && (p.parsed.Some? ==> p.parsed == Parse(p.req.model))
  }

  predicate Inv(m: Machine) {
    && PlanOk(m.p)
    && Remaining(m.p, m.pending)
    && (Early(m.phase) ==> m.pending == Parameters(m.p.parsed))
    && (m.planned.Some? ==> m.pending != [] && m.planned.value == m.pending[0])
    && (m.phase == Verified ==> m.last.Some? && Exact(m.p, m.last.value))
    && (m.effective.Some? ==> m.effective.value == m.p.req.model)
  }

  lemma NewInv(req: Request)
    requires New(req).Some?
    ensures Inv(New(req).value) && New(req).value.p.req == req
  {
  }

  /** What the final readback composes is the literal that was requested. */
  lemma ComposedIsRequested(m: Machine, o: Options)
    requires m.p.parsed.Some? && m.p.parsed == Parse(m.p.req.model) && ModelExact(m.p, o)
    ensures Compose(Model(o[m.p.req.modelSelector].current.s, Parameters(m.p.parsed))) == m.p.req.model
  {
    ComposeParse(m.p.req.model);
    assert Model(m.p.parsed.value.base, m.p.parsed.value.parameters) == m.p.parsed.value;
  }

  lemma VerifyInv(m: Machine, o: Options)
    requires Inv(m) && m.phase != Verified && m.p.parsed.Some? && m.last == Some(o)
    ensures Inv(VerifyWhole(m, o).m) && VerifyWhole(m, o).m.p == m.p
  {
    hide Parse, Compose, SameParameters, ParametersExact, Remaining, ModeExact;
    if VerifyWhole(m, o).ok {
      ComposedIsRequested(m, o);
    }
  }

  lemma ModelInv(m: Machine, o: Option<Options>)
    requires Inv(m)
    ensures Inv(RecordModel(m, o).m) && RecordModel(m, o).m.p == m.p
  {
    hide Parse, SameParameters, ParametersExact, VerifyWhole, ModelExact, ModeExact, Remaining, PairingOk;
    if m.phase == ModelPlanned && o.Some? && m.p.parsed.Some? {
      VerifyInv(m.(last := o, postModel := o.value), o.value);
    }
  }

  lemma OneFewer(p: Plan, pending: seq<(string, string)>)
    requires Remaining(p, pending) && pending != []
    ensures Remaining(p, pending[1..])
  {
  }

  lemma ParameterInv(m: Machine, o: Option<Options>)
    requires Inv(m)
    ensures Inv(RecordParameter(m, o).m) && RecordParameter(m, o).m.p == m.p
  {
    hide Parse, VerifyWhole, ModelExact, Exact, Shows, Remaining, PairingOk;
    if m.phase == ParameterPlanned && m.planned.Some? && o.Some? {
      OneFewer(m.p, m.pending);
      if m.p.parsed.Some? {
        VerifyInv(m.(last := o, pending := m.pending[1..], planned := None, postModel := o.value), o.value);
      } else {
        NothingPending(m);
      }
    }
  }

  lemma NothingPending(m: Machine)
    requires Inv(m) && m.p.parsed.None?
    ensures m.pending == []
  {
  }

  lemma EffortInv(m: Machine, o: Option<Options>)
    requires Inv(m)
    ensures Inv(RecordEffort(m, o).m) && RecordEffort(m, o).m.p == m.p
  {
    hide Parse, Shows, Remaining, ModeExact;
  }

  lemma MakeInv(m: Machine, call: Call)
    requires Inv(m)
    ensures Inv(Make(m, call).m) && Make(m, call).m.p == m.p
  {
    hide Exact, ModeExact, Offers, Remaining, PlanOk, RecordModel, RecordParameter, RecordEffort;
    match call
    case CallModel(o) => ModelInv(m, o);
    case CallParameter(o) => ParameterInv(m, o);
    case CallEffort(o) => EffortInv(m, o);
    case _ =>
  }

  /**
   * Whatever is called in whatever order with whatever an agent answers, if the gate opens then the set consumed last
   * shows model, effort or every parameter, and permission mode exact, and the gate returns exactly what was asked.
   */
  lemma {:induction false} GateMeansExact(m: Machine, calls: seq<Call>)
    requires Inv(m)
    ensures Inv(After(m, calls)) && After(m, calls).p == m.p
    ensures Ready(After(m, calls)).Some? ==>
      && After(m, calls).last.Some? && Exact(m.p, After(m, calls).last.value)
      && Ready(After(m, calls)).value == (m.p.req.model, m.p.req.effort)
    decreases |calls|
  {
    hide Exact, Make, PairingOk, Parse;
    if calls != [] {
      MakeInv(m, calls[0]);
      GateMeansExact(Make(m, calls[0]).m, calls[1..]);
    }
  }

  /** Of a machine as constructed for a request, so for every Run. */
  lemma PromptMeansExact(req: Request, calls: seq<Call>)
    requires New(req).Some? && Ready(After(New(req).value, calls)).Some?
    ensures var m := After(New(req).value, calls);
      Ready(m).value == (req.model, req.effort) && m.last.Some? && Exact(m.p, m.last.value) && m.p.req == req
  {
    hide Inv, Exact, New, After, Ready;
    NewInv(req);
    GateMeansExact(New(req).value, calls);
  }

  // ---- the driver ------------------------------------------------------------------

  datatype Frame = Frame(id: string, value: string)

  function ParameterFrames(ps: seq<(string, string)>): seq<Frame> {
    seq(|ps|, i requires 0 <= i < |ps| => Frame(ps[i].0, ps[i].1))
  }

  function ModeFrames(req: Request): seq<Frame> {
    if req.modeSelector.Some? && req.requiredMode.Some? then [Frame(req.modeSelector.value, req.requiredMode.value)]
        else []
  }

  function LastFrames(p: Plan): seq<Frame> {
    match p.req.fidelity
    case Separate => if p.req.effortSelector.Some? then [Frame(p.req.effortSelector.value, p.req.effort)] else []
    case Parameterized => ParameterFrames(Parameters(p.parsed))
    case _ => []
  }

  /**
   * The set frames of a Run: the mode if one is frozen, the model, then effort, or the parameters in order, or
   * nothing.
   */
  function Script(p: Plan): seq<Frame> {
    ModeFrames(p.req) + [Frame(p.req.modelSelector, ModelValue(p))] + LastFrames(p)
  }

  /** The frozen permission mode first, with its readback; nothing where none is frozen. */
  method SetMode(m0: Machine, agent: seq<Frame> -> Option<Options>) returns (m: Machine, frames: seq<Frame>, ok: bool)
    requires Inv(m0)
    ensures Inv(m) && m.p == m0.p
    ensures frames <= ModeFrames(m0.p.req)
    ensures ok ==> frames == ModeFrames(m0.p.req)
  {
    hide Inv;
    m, frames := m0, [];
    if m.p.req.modeSelector.None? {
      assert ModeFrames(m0.p.req) == [];
      return m, frames, true;
    }
    var plan := PlanMode(m);
    MakeInv(m, CallPlanMode);
    m := plan.m;
    if !plan.ok {
      return m, frames, false;
    }
    frames := ModeFrames(m0.p.req);
    var readback := RecordMode(m, agent(frames));
    MakeInv(m, CallMode(agent(frames)));
    return readback.m, frames, readback.ok;
  }

  /** One parameter leg: planned from the latest set, sent, read back. */
  method SetOneParameter(m0: Machine, sent: seq<Frame>, agent: seq<Frame> -> Option<Options>)
    returns (m: Machine, frames: seq<Frame>, ok: bool)
    requires Inv(m0) && m0.pending != []
    ensures Inv(m) && m.p == m0.p
    ensures frames == sent || frames == sent + [Frame(m0.pending[0].0, m0.pending[0].1)]
    ensures ok ==> frames == sent + [Frame(m0.pending[0].0, m0.pending[0].1)] && m.pending == m0.pending[1..]
    ensures ok ==> m.last == agent(frames) && (m.phase == Verified ==> m.pending == [])
  {
    hide Inv, RecordParameter, Offers;
    m, frames := m0, sent;
    var plan := PlanParameter(m);
    MakeInv(m, CallPlanParameter);
    if !plan.ok {
      return plan.m, frames, false;
    }
    m := plan.m;
    frames := frames + [Frame(m.pending[0].0, m.pending[0].1)];
    var readback := RecordParameter(m, agent(frames));
    MakeInv(m, CallParameter(agent(frames)));
    if readback.ok {
      RecordedLeg(m, agent(frames));
    }
    return readback.m, frames, readback.ok;
  }

  lemma NextFrame(ps: seq<(string, string)>, k: nat)
    requires k < |ps|
    ensures |ParameterFrames(ps)| == |ps|
        && ParameterFrames(ps)[..k + 1] == ParameterFrames(ps)[..k] + [Frame(ps[k].0, ps[k].1)]
  {
  }

  /** One leg per parameter, each planned from the set before. */
  method SetParameters(m0: Machine, sent: seq<Frame>, agent: seq<Frame> -> Option<Options>)
    returns (m: Machine, frames: seq<Frame>, ok: bool)
    requires Inv(m0) && m0.p.parsed.Some? && m0.pending == Parameters(m0.p.parsed)
    requires m0.phase == Verified ==> m0.last == agent(sent)
    requires m0.pending != [] ==> m0.phase != Verified
    ensures Inv(m) && m.p == m0.p
    ensures sent <= frames <= sent + ParameterFrames(Parameters(m0.p.parsed))
    ensures ok ==> frames == sent + ParameterFrames(Parameters(m0.p.parsed))
    ensures ok && m.phase == Verified ==> m.last == agent(frames)
  {
    hide Inv, ParameterFrames, Parameters;
    m, frames := m0, sent;
    ghost var ps := Parameters(m0.p.parsed);
    ghost var k := 0;
    FramesCount(ps);
    while m.pending != []
      invariant Inv(m) && m.p == m0.p
      invariant k <= |ps| && m.pending == ps[k..]
      invariant frames == sent + ParameterFrames(ps)[..k]
      invariant m.phase == Verified ==> m.last == agent(frames) && m.pending == []
      decreases |m.pending|
    {
      NextFrame(ps, k);
      m, frames, ok := SetOneParameter(m, frames, agent);
      if !ok {
        return;
      }
      k := k + 1;
    }
    assert k == |ps| && ParameterFrames(ps)[..k] == ParameterFrames(ps);
    ok := true;
  }

  lemma FramesCount(ps: seq<(string, string)>)
    ensures |ParameterFrames(ps)| == |ps|
  {
  }

  lemma RecordedLeg(m: Machine, o: Option<Options>)
    requires RecordParameter(m, o).ok
    ensures RecordParameter(m, o).m.pending == m.pending[1..] && RecordParameter(m, o).m.last == o
    ensures RecordParameter(m, o).m.phase == Verified ==> RecordParameter(m, o).m.pending == []
  {
    hide Compose, SameParameters, ParametersExact, Shows;
  }

  /**
   * The driver's sequence. However the agent answers, no set frame is sent outside the script, and a released pair
   * means the whole script was sent, the pair is the request's, and the agent's last answer shows all of it exact.
   */
  method SetConfigExact(m0: Machine, agent: seq<Frame> -> Option<Options>)
    returns (m: Machine, frames: seq<Frame>, r: Option<(string, string)>)
    requires Inv(m0)
    ensures frames <= Script(m0.p)
    ensures r.Some? ==> frames == Script(m0.p) && r.value == (m0.p.req.model, m0.p.req.effort)
    ensures r.Some? ==> agent(frames).Some? && Exact(m0.p, agent(frames).value)
  {
    hide Inv, Exact, Parse;
    var ok: bool;
    m, frames, ok := SetMode(m0, agent);
    PrefixOfScript(m0, frames, 0);
    if !ok {
      return m, frames, None;
    }
    var plan := PlanModel(m);
    MakeInv(m, CallPlanModel);
    if !plan.ok {
      return plan.m, frames, None;
    }
    m := plan.m;
    frames := frames + [Frame(m.p.req.modelSelector, ModelValue(m.p))];
    PrefixOfScript(m0, frames, 1);
    var readback := RecordModel(m, agent(frames));
    MakeInv(m, CallModel(agent(frames)));
    ModelLeg(m, agent(frames));
    m := readback.m;
    if !readback.ok {
      return m, frames, None;
    }
    if m.p.req.fidelity.Parameterized? {
      m, frames, ok := SetParameters(m, frames, agent);
    } else if !m.p.req.fidelity.ModelOnly? {
      m, frames, ok := SetEffort(m, frames, agent);
    }
    if !ok {
      return m, frames, None;
    }
    r := Ready(m);
    GateMeansExact(m, []);
  }

  method SetEffort(m0: Machine, sent: seq<Frame>, agent: seq<Frame> -> Option<Options>)
    returns (m: Machine, frames: seq<Frame>, ok: bool)
    requires Inv(m0) && m0.p.req.fidelity.Separate? && m0.phase != Verified
    ensures Inv(m) && m.p == m0.p
    ensures sent <= frames <= sent + LastFrames(m0.p)
    ensures ok ==> frames == sent + LastFrames(m0.p) && m.last == agent(frames)
  {
    hide Inv;
    m, frames := m0, sent;
    var plan := PlanEffort(m);
    MakeInv(m, CallPlanEffort);
    if !plan.ok {
      return plan.m, frames, false;
    }
    frames := frames + LastFrames(m0.p);
    m := plan.m;
    var readback := RecordEffort(m, agent(frames));
    MakeInv(m, CallEffort(agent(frames)));
    return readback.m, frames, readback.ok;
  }

  /** What a model leg that succeeded leaves behind. */
  lemma ModelLeg(m: Machine, o: Option<Options>)
    requires Inv(m) && m.phase == ModelPlanned
    ensures RecordModel(m, o).ok ==>
      var m' := RecordModel(m, o).m;
      && m'.last == o && m'.pending == Parameters(m'.p.parsed)
      && (m'.p.req.fidelity.Parameterized? ==> m'.p.parsed.Some? && (m'.pending != [] ==> m'.phase != Verified))
      && (m'.p.req.fidelity.ModelOnly? ==> LastFrames(m'.p) == [])
      && (!Whole(m'.p.req.fidelity) ==> m'.p.req.fidelity.Separate? && m'.phase != Verified)
  {
    hide Compose, Parse, SameParameters, ParametersExact, Shows;
  }

  lemma PrefixOfScript(m: Machine, frames: seq<Frame>, n: nat)
    requires if n == 0 then frames <= ModeFrames(m.p.req)
             else frames == ModeFrames(m.p.req) + [Frame(m.p.req.modelSelector, ModelValue(m.p))]
    ensures frames <= Script(m.p)
  {
  }
}
