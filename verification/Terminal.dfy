/** The terminal `result.json`: what the emitter builds and what the validator trusts. */
module Terminal {
  import opened Wrappers

  const MAX_RESULT_BYTES: nat := 512 * 1024

  datatype Status = Completed | TimedOut | Failed | Cancelled | StatusUnknown

  /** A JSON value; of a nested one only its kind and its serialised size matter here. */
  datatype Json = Null | Bool(b: bool) | Number(n: int) | Text(s: string) | Nested(isObject: bool, size: nat)

  /** A stored object, key by key; `extra` says whether it carries any key that is not one of these. */
  datatype Payload = Payload(
    runId: Option<Json>, status: Option<Json>, businessVerdict: Option<Json>, errorCode: Option<Json>,
    detailCode: Option<Json>, origin: Option<Json>, retryable: Option<Json>, signal: Option<Json>,
    stopReason: Option<Json>, usage: Option<Json>, finalMessage: Option<Json>, truncated: Option<Json>,
    truncateReason: Option<Json>, observedEffect: Option<Json>, runDir: Option<Json>, stderrPath: Option<Json>,
    rawEventPath: Option<Json>, redactionReportPath: Option<Json>,
    sessionId: Option<Json>, failureReason: Option<Json>, extra: bool)

  // ---- serialised size -----------------------------------------------------------

  /** Bytes an ASCII-only JSON string spends on one character. */
  function EscapedLength(c: char): nat {
    if c == '"' || c == '\\' || c == '\n' || c == '\r' || c == '\t' || c as int == 8 || c as int == 12 then 2
    else if ' ' <= c <= '~' then 1
    else if c as int > 0xFFFF then 12
    else 6
  }

  function QuotedLength(s: string): nat {
    if s == "" then 2 else EscapedLength(s[0]) + QuotedLength(s[1..])
  }

  lemma {:induction false} QuotedBounds(s: string)
    ensures |s| + 2 <= QuotedLength(s) <= 12 * |s| + 2
  {
    if s != "" {
      QuotedBounds(s[1..]);
    }
  }

  function DecimalLength(n: int): nat
    decreases if n < 0 then 1 - n else n
  {
    if n < 0 then 1 + DecimalLength(-n) else if n < 10 then 1 else 1 + DecimalLength(n / 10)
  }

  function ValueLength(v: Json): nat {
    match v
    case Null => 4
    case Bool(b) => if b then 4 else 5
    case Number(n) => DecimalLength(n)
    case Text(s) => QuotedLength(s)
    case Nested(_, size) => size
  }

  /**
   * One line of the two-space form: indent, quoted key, colon, value, and the break before the next line or the brace.
   */
  function Line(keyLength: nat, v: Option<Json>): nat {
    if v.Some? then keyLength + 8 + ValueLength(v.value) else 0
  }

  /** The lines that do not name the Run, its directory or its Session. */
  function CommonLines(p: Payload): nat {
    Line(16, p.businessVerdict) + Line(11, p.detailCode) + Line(10, p.errorCode) + Line(14, p.failureReason)
    + Line(13, p.finalMessage) + Line(15, p.observedEffect) + Line(6, p.origin) + Line(14, p.rawEventPath)
    + Line(21, p.redactionReportPath) + Line(9, p.retryable) + Line(6, p.signal) + Line(6, p.status)
    + Line(11, p.stderrPath) + Line(11, p.stopReason) + Line(15, p.truncateReason) + Line(9, p.truncated)
    + Line(5, p.usage)
  }

  /** The serialised size of an object all of whose keys are known. */
  function Size(p: Payload): nat {
    2 + CommonLines(p) + Line(7, p.runDir) + Line(6, p.runId) + Line(10, p.sessionId)
  }

  // ---- the validator ---------------------------------------------------------------

  function StatusText(s: Status): string {
    match s
    case Completed => "completed"
    case TimedOut => "timed_out"
    case Failed => "failed"
    case Cancelled => "cancelled"
    case StatusUnknown => "unknown"
  }

  function ParseStatus(v: Json): Option<Status> {
    if !v.Text? then None
    else if v.s == StatusText(Completed) then Some(Completed)
    else if v.s == StatusText(TimedOut) then Some(TimedOut)
    else if v.s == StatusText(Failed) then Some(Failed)
    else if v.s == StatusText(Cancelled) then Some(Cancelled)
    else if v.s == StatusText(StatusUnknown) then Some(StatusUnknown)
    else None
  }

  predicate RetryableDefault(s: Status) {
    s == TimedOut
  }

  function DefaultErrorCode(s: Status): Json {
    match s
    case Completed => Null
    case TimedOut => Text("TIMED_OUT")
    case Failed => Text("FAILED")
    case Cancelled => Text("CANCELLED")
    case StatusUnknown => Text("UNKNOWN")
  }

  predicate OptionalText(v: Json) {
    v.Null? || v.Text?
  }

  const SUPERVISOR := Text("supervisor")
  const ACP := Text("acp")
  const EMERGENCY := Text("EMERGENCY_FINALIZE")

  predicate CompletedStop(v: Json) {
    v == Text("end_turn") || v == Text("max_tokens") || v == Text("max_turn_requests") || v == Text("refusal")
  }

  predicate AllowedReason(v: Json) {
    v in {Text("admission failed"), Text("spawn failed"), Text("startup timed out"), Text("session load unavailable"),
          Text("silent session recreation"), Text("config fidelity failed"), Text("evidence pipeline failed"),
          Text("supervisor cancellation"), Text("run exception"), Text("run failed")}
  }

  /** Which status, origin, stop and detail combinations an emitter can have written. */
  predicate GrammarOk(status: Status, origin: Json, stop: Json, detail: Json) {
    if origin == ACP && stop.Null? then false
    else
      match status
      case Completed => origin == ACP && CompletedStop(stop)
      case Cancelled => origin == ACP && stop == Text("cancelled")
      case StatusUnknown => origin == SUPERVISOR && stop.Null?
      case TimedOut => if origin == ACP then !stop.Null? else origin == SUPERVISOR && stop.Null?
      case Failed =>
        if origin == ACP then !stop.Null?
        else origin == SUPERVISOR && (stop.Null? || detail == EMERGENCY)
  }

  /** Every required key, and no unknown one. */
  predicate Shape(p: Payload) {
    && p.runId.Some? && p.status.Some? && p.businessVerdict.Some? && p.errorCode.Some? && p.detailCode.Some?
    && p.origin.Some? && p.retryable.Some? && p.signal.Some? && p.stopReason.Some? && p.usage.Some?
    && p.finalMessage.Some? && p.truncated.Some? && p.truncateReason.Some? && p.observedEffect.Some? && p.runDir.Some?
    && p.stderrPath.Some? && p.rawEventPath.Some? && p.redactionReportPath.Some? && !p.extra
  }

  predicate Typed(p: Payload)
    requires Shape(p)
  {
    && OptionalText(p.detailCode.value) && (p.signal.value.Null? || p.signal.value.Number?)
    && OptionalText(p.stopReason.value) && (p.usage.value.Null? || (p.usage.value.Nested? && p.usage.value.isObject))
    && p.finalMessage.value.Text? && p.truncated.value.Bool? && OptionalText(p.truncateReason.value)
    && (p.observedEffect.value.Null? || p.observedEffect.value.Bool?) && p.runDir.value.Text?
    && p.stderrPath.value.Text? && p.rawEventPath.value.Text? && p.redactionReportPath.value.Text?
    && p.businessVerdict.value.Null?
  }

  /** Everything the validator asks but the size. */
  predicate WellFormed(p: Payload, runId: string) {
    && Shape(p) && Typed(p)
    && p.runId.value == Text(runId)
    && var status := ParseStatus(p.status.value);
    && status.Some?
    && p.retryable.value == Bool(RetryableDefault(status.value))
    && (p.origin.value == ACP || p.origin.value == SUPERVISOR)
    && p.errorCode.value == DefaultErrorCode(status.value)
    && (p.failureReason.Some? ==> p.failureReason.value.Null? || AllowedReason(p.failureReason.value))
    && GrammarOk(status.value, p.origin.value, p.stopReason.value, p.detailCode.value)
  }

  /** The validator. */
  predicate Trusted(p: Payload, runId: string) {
    WellFormed(p, runId) && Size(p) <= MAX_RESULT_BYTES
  }

  // ---- the emitter -----------------------------------------------------------------

  /**
   * What reconciliation emits: a supervisor-origin terminal with no stop reason, with the Session when there is one.
   */
  function Emitted(runId: string, runDir: string, status: Status, detail: string, session: Option<string>): Payload {
    Payload(Some(Text(runId)), Some(Text(StatusText(status))), Some(Null), Some(DefaultErrorCode(status)),
            Some(Text(detail)), Some(SUPERVISOR), Some(Bool(RetryableDefault(status))), Some(Null), Some(Null),
            Some(Null), Some(Text("")), Some(Bool(false)), Some(Null), Some(Null), Some(Text(runDir)),
            Some(Text("stderr.log")), Some(Text("events.jsonl")), Some(Text("redaction-report.json")),
            if session.Some? && session.value != "" then Some(Text(session.value)) else None, None, false)
  }

  /** What the terminal takes apart from the three identities. */
  function Fixed(status: Status, detail: string): nat {
    31 + CommonLines(Emitted("", "", status, detail, None))
  }

  /** The size an emission will have, from its inputs alone. */
  function EmittedSize(runId: string, runDir: string, status: Status, detail: string, session: Option<string>): nat {
    Fixed(status, detail) + QuotedLength(runId) + QuotedLength(runDir)
    + if session.Some? && session.value != "" then 18 + QuotedLength(session.value) else 0
  }

  lemma SizeIsAsPredicted(runId: string, runDir: string, status: Status, detail: string, session: Option<string>)
    ensures Size(Emitted(runId, runDir, status, detail, session)) == EmittedSize(runId, runDir, status, detail, session)
  {
    hide QuotedLength;
    var p, q := Emitted(runId, runDir, status, detail, session), Emitted("", "", status, detail, None);
    assert CommonLines(p) == CommonLines(q) by { hide Line; }
    hide CommonLines;
  }

  lemma EmittedWellFormed(runId: string, runDir: string, status: Status, detail: string, session: Option<string>)
    requires status == Failed || status == StatusUnknown
    ensures WellFormed(Emitted(runId, runDir, status, detail, session), runId)
    ensures ParseStatus(Emitted(runId, runDir, status, detail, session).status.value) == Some(status)
  {
    assert |StatusText(status)| != |StatusText(Completed)|;
  }

  /** A terminal that reconciliation emits is trusted exactly when its predicted size is within the ceiling. */
  lemma EmittedTrustedIff(runId: string, runDir: string, status: Status, detail: string, session: Option<string>)
    requires status == Failed || status == StatusUnknown
    ensures Trusted(Emitted(runId, runDir, status, detail, session), runId)
      <==> EmittedSize(runId, runDir, status, detail, session) <= MAX_RESULT_BYTES
  {
    hide WellFormed, Size, EmittedSize;
    SizeIsAsPredicted(runId, runDir, status, detail, session);
    EmittedWellFormed(runId, runDir, status, detail, session);
  }

  lemma ShortText(key: nat, s: string, longest: nat)
    requires |s| <= longest
    ensures Line(key, Some(Text(s))) <= key + 10 + 12 * longest
  {
    QuotedBounds(s);
  }

  lemma ShortCodes(status: Status)
    ensures Line(10, Some(DefaultErrorCode(status))) <= 200
    ensures Line(6, Some(Text(StatusText(status)))) <= 200
  {
    hide QuotedLength;
    QuotedBounds(StatusText(status));
    if DefaultErrorCode(status).Text? {
      QuotedBounds(DefaultErrorCode(status).s);
    }
  }

  lemma FixedIsSmall(status: Status, detail: string)
    requires |detail| <= 64
    ensures Fixed(status, detail) <= 3_000
  {
    hide Line, StatusText, DefaultErrorCode;
    ShortCodes(status);
    ShortText(11, detail, 64);
    ShortText(13, "", 0);
    ShortText(6, "supervisor", 10);
    ShortText(14, "events.jsonl", 12);
    ShortText(11, "stderr.log", 10);
    ShortText(21, "redaction-report.json", 21);
    NullLines();
  }

  lemma NullLines()
    ensures Line(16, Some(Null)) == 28 && Line(15, Some(Null)) == 27 && Line(6, Some(Null)) == 18
    ensures Line(11, Some(Null)) == 23 && Line(5, Some(Null)) == 17 && (forall b :: Line(9, Some(Bool(b))) <= 22)
    ensures Line(14, None) == 0
  {
  }

  /** Identities and paths of ordinary length always fit. */
  lemma OrdinaryFits(runId: string, runDir: string, status: Status, detail: string, session: Option<string>)
    requires |runId| <= 10_000 && |runDir| <= 10_000 && |detail| <= 64 && (session.Some? ==> |session.value| <= 10_000)
    ensures EmittedSize(runId, runDir, status, detail, session) <= MAX_RESULT_BYTES
  {
    hide QuotedLength, Fixed;
    FixedIsSmall(status, detail);
    QuotedBounds(runId);
    QuotedBounds(runDir);
    if session.Some? {
      QuotedBounds(session.value);
    }
  }

  /** The rule for Session names, which sets no length. */
  predicate ValidSessionId(s: string) {
    s != "" && (forall i :: 0 <= i < |s| ==> NameChar(s[i])) && s[0] != '_' && s[0] != '-'
  }

  predicate NameChar(c: char) {
    'A' <= c <= 'Z' || 'a' <= c <= 'z' || '0' <= c <= '9' || c == '_' || c == '-'
  }

  function Repeated(n: nat): string {
    seq(n, _ => 'a')
  }

  /** The ceiling is not met by every valid name: here is one whose terminal the validator refuses. */
  lemma LongNameIsUntrusted(runId: string, runDir: string, status: Status, detail: string, n: nat)
    requires (status == Failed || status == StatusUnknown) && MAX_RESULT_BYTES <= n
    ensures ValidSessionId(Repeated(n))
    ensures !Trusted(Emitted(runId, runDir, status, detail, Some(Repeated(n))), runId)
  {
    hide Fixed, Trusted, QuotedLength;
    QuotedBounds(Repeated(n));
    EmittedTrustedIff(runId, runDir, status, detail, Some(Repeated(n)));
  }
}
