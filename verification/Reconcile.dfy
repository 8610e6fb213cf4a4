/**
 * Startup reconciliation: every Run directory is classified, gets one row of an exhaustive table, and the row's
 * writes are made one after another. The disk is a record of documents; timestamps are not part of it.
 */
module Reconcile {
  import opened Wrappers
  import opened Terminal

  datatype Attribution = Attribution(session: string, owner: string, namespace: string)

  /** A document after validation: the Spec and the submission name a Session when they are valid. */
  datatype Doc = DocAbsent | DocCorrupt | DocValid(attribution: Attribution)

  datatype Kind = KindAbsent | KindCorrupt | KindValid

  datatype Stored = NoResult | Unreadable | Object(payload: Payload)

  /** Progress as a reader sees it: an object with whichever usable members it has, or nothing usable. */
  datatype Progress = NoProgress | Recorded(state: Option<string>, lastSeq: Option<int>, eventCount: Option<int>)

  datatype RunDoc = RunDoc(result: Stored, dispatch: bool, switchStarted: bool, switchProven: bool,
                           rollbackProven: bool, spec: Doc, launch: Kind, submission: Doc, progress: Progress)

  datatype Reason = DispatchWithoutTerminal | RollbackUnproven | OtherReason(code: string)

  datatype Evidence = Evidence(reason: Reason, runId: string)

  datatype Session = Session(readable: bool, owner: string, namespace: string,
                             evidence: Option<Evidence>, fence: Option<Evidence>)

  datatype Disk = Disk(root: string, runs: map<string, RunDoc>, sessions: map<string, Session>)

  // ---- classification ------------------------------------------------------------

  datatype TerminalClass = TrustedTerminal | TrustedUnknown | CorruptTerminal | AbsentTerminal

  datatype Facts = Facts(terminal: TerminalClass, dispatch: bool, spec: Kind, launch: Kind, submission: Kind,
                         actionable: bool, attribution: Option<Attribution>, switchUnproven: bool)

  function ClassifyResult(result: Stored, runId: string): TerminalClass {
    match result
    case NoResult => AbsentTerminal
    case Unreadable => CorruptTerminal
    case Object(p) =>
      if !Trusted(p, runId) then CorruptTerminal
      else if ParseStatus(p.status.value) == Some(StatusUnknown) then TrustedUnknown
      else TrustedTerminal
  }

  function KindOf(doc: Doc): Kind {
    match doc
    case DocAbsent => KindAbsent
    case DocCorrupt => KindCorrupt
    case DocValid(_) => KindValid
  }

  /** A valid Spec is the authority; a valid submission stands in only when the Spec is not valid. */
  function Attributed(doc: RunDoc): Option<Attribution> {
    if doc.spec.DocValid? then Some(doc.spec.attribution)
    else if doc.submission.DocValid? then Some(doc.submission.attribution)
    else None
  }

  predicate Actionable(sessions: map<string, Session>, attribution: Option<Attribution>) {
    && attribution.Some?
    && attribution.value.session in sessions
    && var s := sessions[attribution.value.session];
    s.readable && s.owner == attribution.value.owner && s.namespace == attribution.value.namespace
  }

  predicate SwitchUnproven(doc: RunDoc) {
    doc.switchStarted && !(doc.switchProven || doc.rollbackProven)
  }

  function Classify(d: Disk, r: string): Facts
    requires r in d.runs
  {
    var doc := d.runs[r];
    Facts(ClassifyResult(doc.result, r), doc.dispatch, KindOf(doc.spec), doc.launch, KindOf(doc.submission),
          Actionable(d.sessions, Attributed(doc)), Attributed(doc), SwitchUnproven(doc))
  }

  // ---- the table -----------------------------------------------------------------

  datatype Outcome = AuthoritativeTerminal | UnknownQuarantine | PreDispatchFailed | RefuseToListen

  datatype Row = Row(number: int, outcome: Outcome)

  function SelectRow(f: Facts): Row {
    if f.terminal == TrustedTerminal then Row(1, AuthoritativeTerminal)
    else if f.terminal == TrustedUnknown then
      if f.actionable then Row(2, UnknownQuarantine) else Row(3, RefuseToListen)
    else if f.terminal == CorruptTerminal then Row(4, RefuseToListen)
    else if f.dispatch then
      if f.actionable then Row(5, UnknownQuarantine) else Row(6, RefuseToListen)
    else if f.spec == KindValid then
      if f.launch == KindCorrupt then Row(8, RefuseToListen) else Row(7, PreDispatchFailed)
    else if f.spec == KindCorrupt then Row(9, RefuseToListen)
    else if f.launch != KindAbsent then Row(10, RefuseToListen)
    else if f.submission == KindCorrupt then Row(11, RefuseToListen)
    else Row(11, PreDispatchFailed)
  }

  // ---- the writes ----------------------------------------------------------------

  datatype Write =
    | PutFence(session: string, ev: Evidence)
    | PutEvidence(session: string, ev: Evidence)
    | DropFence(session: string)
    | PutProgress(run: string, progress: Progress)
    | PutResult(run: string, payload: Payload)

  function ApplyWrite(d: Disk, w: Write): Disk {
    match w
    case PutFence(s, ev) =>
      if s in d.sessions then d.(sessions := d.sessions[s := d.sessions[s].(fence := Some(ev))]) else d
    case PutEvidence(s, ev) =>
      if s in d.sessions then d.(sessions := d.sessions[s := d.sessions[s].(evidence := Some(ev))]) else d
    case DropFence(s) =>
      if s in d.sessions then d.(sessions := d.sessions[s := d.sessions[s].(fence := None)]) else d
    case PutProgress(r, progress) =>
      if r in d.runs then d.(runs := d.runs[r := d.runs[r].(progress := progress)]) else d
    case PutResult(r, payload) =>
      if r in d.runs then d.(runs := d.runs[r := d.runs[r].(result := Object(payload))]) else d
  }

  function ApplyAll(d: Disk, ws: seq<Write>): Disk
    decreases |ws|
  {
    if ws == [] then d else ApplyAll(ApplyWrite(d, ws[0]), ws[1..])
  }

  /** Fence, evidence, fence cleared; where the evidence stands already, only a fence left behind is cleared. */
  function SessionWrites(s: Session, sid: string, ev: Evidence): seq<Write> {
    if s.evidence.Some? then
      if s.fence.Some? then [DropFence(sid)] else []
    else [PutFence(sid, ev), PutEvidence(sid, ev), DropFence(sid)]
  }

  const UNKNOWN_STATE := "unknown"

  function UnknownProgress(existing: Progress): Progress {
    match existing
    case NoProgress => Recorded(Some(UNKNOWN_STATE), Some(0), Some(0))
    case Recorded(_, lastSeq, eventCount) =>
      var last := if lastSeq.Some? then lastSeq.value else 0;
      Recorded(Some(UNKNOWN_STATE), Some(last), Some(if eventCount.Some? then eventCount.value else last))
  }

  function ProgressWrites(doc: RunDoc, r: string): seq<Write> {
    if doc.progress.Recorded? && doc.progress.state == Some(UNKNOWN_STATE) then []
    else [PutProgress(r, UnknownProgress(doc.progress))]
  }

  /** The Session a row quarantines, with the evidence it would record. */
  function Quarantines(f: Facts, r: string): Option<(string, Evidence)> {
    var row := SelectRow(f);
    if !f.actionable || f.attribution.None? then None
    else if row.outcome == UnknownQuarantine || (row.number == 4 && f.dispatch) then
      Some((f.attribution.value.session, Evidence(DispatchWithoutTerminal, r)))
    else if row.outcome == PreDispatchFailed && f.switchUnproven then
      Some((f.attribution.value.session, Evidence(RollbackUnproven, r)))
    else None
  }

  predicate Emits(f: Facts) {
    SelectRow(f).number == 5 || SelectRow(f).outcome == PreDispatchFailed
  }

  function EmitStatus(f: Facts): Status {
    if SelectRow(f).number == 5 then StatusUnknown else Failed
  }

  function EmitDetail(f: Facts): string {
    if SelectRow(f).number == 5 then "RECONCILED_UNKNOWN" else "RECONCILED_PRE_DISPATCH"
  }

  function EmitSession(f: Facts): Option<string> {
    if f.attribution.Some? then Some(f.attribution.value.session) else None
  }

  function RunDirOf(d: Disk, r: string): string {
    d.root + "/" + r
  }

  function Emission(d: Disk, r: string, f: Facts): Payload {
    Emitted(r, RunDirOf(d, r), EmitStatus(f), EmitDetail(f), EmitSession(f))
  }

  function RunSessionWrites(d: Disk, r: string, f: Facts): seq<Write> {
    var q := Quarantines(f, r);
    if q.Some? && q.value.0 in d.sessions then SessionWrites(d.sessions[q.value.0], q.value.0, q.value.1) else []
  }

  function RunProgressWrites(d: Disk, r: string, f: Facts): seq<Write>
    requires r in d.runs
  {
    if SelectRow(f).outcome == UnknownQuarantine then ProgressWrites(d.runs[r], r) else []
  }

  function RunResultWrites(d: Disk, r: string, f: Facts): seq<Write>
    requires r in d.runs
  {
    if Emits(f) && d.runs[r].result.NoResult? then [PutResult(r, Emission(d, r, f))] else []
  }

  /** All the writes one Run's row makes, in order: fence, quarantine, progress, terminal last. */
  function RunWrites(d: Disk, r: string): seq<Write>
    requires r in d.runs
  {
    var f := Classify(d, r);
    RunSessionWrites(d, r, f) + RunProgressWrites(d, r, f) + RunResultWrites(d, r, f)
  }

  function Refusal(d: Disk, r: string): Option<int>
    requires r in d.runs
  {
    var row := SelectRow(Classify(d, r));
    if row.outcome == RefuseToListen then Some(row.number) else None
  }

  // ---- one pass --------------------------------------------------------------------

  predicate Listed(d: Disk, order: seq<string>) {
    forall i :: 0 <= i < |order| ==> order[i] in d.runs
  }

  predicate Distinct(order: seq<string>) {
    forall i, j :: 0 <= i < j < |order| ==> order[i] != order[j]
  }

  lemma WriteKeepsKeys(d: Disk, w: Write)
    ensures ApplyWrite(d, w).runs.Keys == d.runs.Keys
    ensures ApplyWrite(d, w).sessions.Keys == d.sessions.Keys
    ensures ApplyWrite(d, w).root == d.root
  {
  }

  lemma {:induction false} WritesKeepKeys(d: Disk, ws: seq<Write>)
    ensures ApplyAll(d, ws).runs.Keys == d.runs.Keys
    ensures ApplyAll(d, ws).sessions.Keys == d.sessions.Keys
    ensures ApplyAll(d, ws).root == d.root
    decreases |ws|
  {
    if ws != [] {
      WriteKeepsKeys(d, ws[0]);
      WritesKeepKeys(ApplyWrite(d, ws[0]), ws[1..]);
    }
  }

  function Settle(d: Disk, r: string): (d': Disk)
    requires r in d.runs
    ensures d'.runs.Keys == d.runs.Keys && d'.sessions.Keys == d.sessions.Keys && d'.root == d.root
  {
    WritesKeepKeys(d, RunWrites(d, r));
    ApplyAll(d, RunWrites(d, r))
  }

  lemma StillListed(d: Disk, d': Disk, order: seq<string>)
    requires Listed(d, order) && d'.runs.Keys == d.runs.Keys && order != []
    ensures Listed(d', order[1..])
  {
    forall i | 0 <= i < |order[1..]|
      ensures order[1..][i] in d'.runs.Keys
    {
      assert order[i + 1] in d.runs.Keys;
    }
  }

  /** The writes of a whole pass over the directories in their order; a refusal ends it. */
  function PassWrites(d: Disk, order: seq<string>): seq<Write>
    requires Listed(d, order)
    decreases |order|
  {
    if order == [] then []
    else if Refusal(d, order[0]).Some? then RunWrites(d, order[0])
    else
      StillListed(d, Settle(d, order[0]), order);
      RunWrites(d, order[0]) + PassWrites(Settle(d, order[0]), order[1..])
  }

  /** How a pass ends: which row refused, if any did. */
  function Verdict(d: Disk, order: seq<string>): Option<int>
    requires Listed(d, order)
    decreases |order|
  {
    if order == [] then None
    else if Refusal(d, order[0]).Some? then Refusal(d, order[0])
    else
      StillListed(d, Settle(d, order[0]), order);
      Verdict(Settle(d, order[0]), order[1..])
  }

  function Final(d: Disk, order: seq<string>): Disk
    requires Listed(d, order)
  {
    ApplyAll(d, PassWrites(d, order))
  }
}
