/** What one delivery must come to: the decision pipeline and the retry loop of consumer.go as functions of
    the payload, the metadata, the registrations and everything the environment does meanwhile. */
module DispatchSpec {
  import opened Basics
  import opened Strconv
  import opened Errors
  import opened Validation
  import opened Backoff
  import opened Telemetry
  import opened RegistryModel

  const ATTEMPT_KEY := "_foi_delivery_attempt"

  datatype LetterReason = PermanentError | MaxAttemptsExceeded | DeserializationFailed

  /** The document written to the DLQ. `cause` stands for the error's text. */
  datatype DeadLetter = DeadLetter(
    reason: LetterReason, cause: Error, attempts: Int64, group: string, consumer: string, topic: string,
    event: Option<string>, eventRaw: Option<string>)

  datatype Settings = Settings(group: string, consumer: string, cap: Int64, retry: RetryConfig)

  /** encoding/json as far as dispatch relies on it: Unmarshal and Marshal of an envelope, Valid, and whether a dead
      letter can be marshalled. */
  datatype Codec = Codec(
    unmarshal: string -> Option<Envelope>, marshal: Envelope -> Option<string>,
    valid: string -> bool, encodes: DeadLetter -> bool)

  /** A message context during one backoff: live throughout, or cancelled with the timer first or not. */
  datatype Ctx = Live | Cancelled(timerFirst: bool)

  /** The environment of one delivery: verdict i of handler h, context and jitter of backoff i. */
  datatype World = World(
    codec: Codec, handler: (Handler, nat) -> Option<Error>, ctx: nat -> Ctx, jitter: nat -> nat, noBackoff: bool)

  datatype SinkState = NoSink | SinkAccepts | SinkFails

  const NO_SINK_ERROR := Opaque("no dead letter sink configured", [])
  const ENCODE_ERROR := Opaque("marshalling dead letter", [])
  const PUBLISH_ERROR := Opaque("publishing dead letter", [])
  const CAP_ERROR := Opaque("delivery attempt exceeded MaxDeliveryAttempts", [])
  const DECODE_ERROR := Opaque("unusable envelope", [])

  /** The delivery as the caller sees it afterwards. `cause` is the error stated to the recorder; `offered` says
      that the sink was asked, `accepted` that it took the letter. */
  datatype Outcome = Outcome(
    err: Option<Error>, kind: Kind, category: Category, reason: Reason, cause: Option<Error>,
    calls: nat, retries: nat, letter: Option<DeadLetter>, offered: bool, accepted: bool)

  // ----- the attempt number -----

  /** A missing, unparseable or nonsensical value is the first delivery. */
  function DeliveryAttempt(metadata: map<string, string>): (n: Int64)
    ensures 1 <= n
  {
    var parsed := ParseInt(if ATTEMPT_KEY in metadata then metadata[ATTEMPT_KEY] else "");
    if parsed.Some? && parsed.value >= 1 then parsed.value else 1
  }

  /** The attempt the subscriber stamps on a message is the one dispatch reads back; a missing key, and a text that is
      no int64 of at least 1, is the first delivery. */
  lemma StampedAttemptSurvives(metadata: map<string, string>, attempt: Int64)
    ensures DeliveryAttempt(metadata[ATTEMPT_KEY := FormatInt(attempt)]) == (if attempt < 1 then 1 else attempt)
    ensures ATTEMPT_KEY !in metadata ==> DeliveryAttempt(metadata) == 1
    ensures ATTEMPT_KEY in metadata ==>
              var n := DeliveryAttempt(metadata);
              n == 1 || exists unsigned :: SignedText(metadata[ATTEMPT_KEY], unsigned, n)
  {
    FormatParseRoundTrip(attempt);
    if ATTEMPT_KEY in metadata {
      ParseIntAccepts(metadata[ATTEMPT_KEY], DeliveryAttempt(metadata));
    }
  }

  // ----- dead letters -----

  /** deadLetterBody: valid JSON travels as the event, anything else as raw bytes. */
  function Body(codec: Codec, payload: string): (Option<string>, Option<string>) {
    if codec.valid(payload) then (Some(payload), None) else (None, Some(payload))
  }

  function NewLetter(s: Settings, topic: string, reason: LetterReason, cause: Error, attempt: Int64): DeadLetter {
    DeadLetter(reason, cause, attempt, s.group, s.consumer, topic, None, None)
  }

  function WithBody(codec: Codec, dl: DeadLetter, payload: string): DeadLetter {
    var (event, raw) := Body(codec, payload);
    dl.(event := event, eventRaw := raw)
  }

  /** The error deadLetter returns: None means the caller may ack. */
  function LetterError(sink: SinkState, codec: Codec, dl: DeadLetter): Option<Error> {
    if sink.NoSink? then Some(NO_SINK_ERROR)
    else if !codec.encodes(dl) then Some(ENCODE_ERROR)
    else if sink.SinkFails? then Some(PUBLISH_ERROR)
    else None
  }

  function Offered(sink: SinkState, codec: Codec, dl: DeadLetter): bool {
    !sink.NoSink? && codec.encodes(dl)
  }

  function DeadLettered(sink: SinkState, codec: Codec, dl: DeadLetter, category: Category, cause: Error,
                        calls: nat, retries: nat): Outcome {
    Outcome(LetterError(sink, codec, dl), Failed, category, NoReason, Some(cause), calls, retries, Some(dl),
            Offered(sink, codec, dl), LetterError(sink, codec, dl).None?)
  }

  // ----- the retry loop -----

  /** The bound of backoff i: messagingtest collapses the wait, never the count. */
  function Upper(s: Settings, w: World, i: nat): Int64 {
    if w.noBackoff then 0 else Doubling(s.retry.initialBackoff, s.retry.maxBackoff, i)
  }

  /** sleepWithJitter's result. */
  predicate Awake(upper: Int64, c: Ctx) {
    c.Live? || (0 < upper && c.timerFirst)
  }

  /** Call i is followed by call i + 1. */
  predicate GoesOn(s: Settings, w: World, fn: Handler, i: nat) {
    i < Retries(s.retry) && IsRetryable(w.handler(fn, i)) && Awake(Upper(s, w, i), w.ctx(i))
  }

  /** The number of the last call. */
  function LastCall(s: Settings, w: World, fn: Handler, i: nat): (j: nat)
    decreases Retries(s.retry) - i
  {
    if GoesOn(s, w, fn, i) then LastCall(s, w, fn, i + 1) else i
  }

  /** What a decisive verdict comes to: processed, dropped, dead-lettered or nacked. */
  function Concluded(s: Settings, w: World, sink: SinkState, topic: string, payload: string, attempt: Int64,
                     verdict: Option<Error>, calls: nat, retries: nat): Outcome {
    if verdict.None? then Outcome(None, Processed, NoCategory, NoReason, None, calls, retries, None, false, false)
    else if IsDiscard(verdict) then Outcome(None, Skipped, NoCategory, Discarded, None, calls, retries, None, false, false)
    else if IsPermanent(verdict) then
      var dl := WithBody(w.codec, NewLetter(s, topic, PermanentError, verdict.value, attempt), payload);
      DeadLettered(sink, w.codec, dl, PermanentFailure, verdict.value, calls, retries)
    else Outcome(verdict, Failed, RetryableFailure, NoReason, verdict, calls, retries, None, false, false)
  }

  /** The last call's verdict decides; a retry is counted before its backoff, so an abandoned one counts too. */
  function RetryOutcome(s: Settings, w: World, sink: SinkState, topic: string, payload: string,
                        attempt: Int64, fn: Handler): Outcome {
    var j := LastCall(s, w, fn, 0);
    var verdict := w.handler(fn, j);
    Concluded(s, w, sink, topic, payload, attempt, verdict, j + 1,
              if IsRetryable(verdict) && j < Retries(s.retry) then j + 1 else j)
  }

  /** Call j is the decisive one: every earlier verdict was retryable and followed by a completed backoff, and
      call j's verdict is not retryable, or its retries are used up, or its backoff was abandoned. */
  ghost predicate Decides(s: Settings, w: World, fn: Handler, j: nat) {
    && j <= Retries(s.retry)
    && (forall i :: 0 <= i < j ==> IsRetryable(w.handler(fn, i)) && Awake(Upper(s, w, i), w.ctx(i)))
    && (!IsRetryable(w.handler(fn, j)) || j == Retries(s.retry) || !Awake(Upper(s, w, j), w.ctx(j)))
  }

  lemma {:induction false} LastCallDecides(s: Settings, w: World, fn: Handler, i: nat)
    requires i <= Retries(s.retry)
    requires forall k :: 0 <= k < i ==> IsRetryable(w.handler(fn, k)) && Awake(Upper(s, w, k), w.ctx(k))
    ensures Decides(s, w, fn, LastCall(s, w, fn, i))
    decreases Retries(s.retry) - i
  {
    if GoesOn(s, w, fn, i) {
      LastCallDecides(s, w, fn, i + 1);
    }
  }

  lemma NoneDecidesLater(s: Settings, w: World, fn: Handler, j: nat, k: nat)
    requires Decides(s, w, fn, j) && Decides(s, w, fn, k)
    ensures k <= j
  {
  }

  /** The retry loop returns the first decisive verdict among the first 1 + MaxImmediateRetries: whichever call
      is decisive, the outcome is that call's, and there is exactly one. */
  lemma FirstDecisiveVerdict(s: Settings, w: World, sink: SinkState, topic: string, payload: string,
                             attempt: Int64, fn: Handler, j: nat)
    ensures Decides(s, w, fn, LastCall(s, w, fn, 0))
    ensures Decides(s, w, fn, j) ==>
              var o, verdict := RetryOutcome(s, w, sink, topic, payload, attempt, fn), w.handler(fn, j);
              && o.calls == j + 1 <= 1 + Retries(s.retry)
              && (verdict.None? <==> o.kind.Processed?)
              && (IsDiscard(verdict) <==> o.kind.Skipped?)
              && (IsPermanent(verdict) <==> o.letter.Some?)
              && (IsRetryable(verdict) <==> o.category.RetryableFailure?)
              && (IsRetryable(verdict) ==> o.err == verdict)
              && (verdict.None? || IsDiscard(verdict) ==> o.err.None?)
    ensures Decides(s, w, fn, j) ==>
              RetryOutcome(s, w, sink, topic, payload, attempt, fn).retries
              == j + One(IsRetryable(w.handler(fn, j)) && j < Retries(s.retry))
  {
    LastCallDecides(s, w, fn, 0);
    var last := LastCall(s, w, fn, 0);
    if Decides(s, w, fn, j) {
      NoneDecidesLater(s, w, fn, j, last);
      NoneDecidesLater(s, w, fn, last, j);
      VerdictOfTree(w.handler(fn, j));
    }
  }

  /** The number of calls in terms of the setting itself. With MaxImmediateRetries >= 0: call j follows when every
      verdict before it was retryable under a context that stayed live, and it is the last one when its verdict is not
      retryable, or it is call number MaxImmediateRetries, or its backoff was abandoned, which still counts a retry. */
  lemma RetriesAreConfigured(s: Settings, w: World, sink: SinkState, topic: string, payload: string, attempt: Int64,
                             fn: Handler, j: nat)
    requires 0 <= s.retry.maxImmediateRetries
    ensures RetryOutcome(s, w, sink, topic, payload, attempt, fn).calls <= 1 + s.retry.maxImmediateRetries
    ensures RetryOutcome(s, w, sink, topic, payload, attempt, fn).retries <= s.retry.maxImmediateRetries
    ensures j <= s.retry.maxImmediateRetries && (forall i :: 0 <= i < j ==> IsRetryable(w.handler(fn, i)) && w.ctx(i).Live?) ==>
              var o := RetryOutcome(s, w, sink, topic, payload, attempt, fn);
              && (!IsRetryable(w.handler(fn, j)) || j == s.retry.maxImmediateRetries ==> o.calls == j + 1 && o.retries == j)
              && (IsRetryable(w.handler(fn, j)) && j < s.retry.maxImmediateRetries && w.ctx(j) == Cancelled(false) ==>
                   o.calls == o.retries == j + 1 && o.err == w.handler(fn, j))
  {
    FirstDecisiveVerdict(s, w, sink, topic, payload, attempt, fn, LastCall(s, w, fn, 0));
    FirstDecisiveVerdict(s, w, sink, topic, payload, attempt, fn, j);
  }

  /** With every verdict retryable and every context live, the handler is called 1 + MaxImmediateRetries times, with
      MaxImmediateRetries retries counted, and the last error nacks. */
  lemma AllRetriesUsed(s: Settings, w: World, sink: SinkState, topic: string, payload: string, attempt: Int64, fn: Handler)
    requires 0 <= s.retry.maxImmediateRetries && forall i: nat :: IsRetryable(w.handler(fn, i)) && w.ctx(i).Live?
    ensures var o := RetryOutcome(s, w, sink, topic, payload, attempt, fn);
            && o.calls == 1 + s.retry.maxImmediateRetries && o.retries == s.retry.maxImmediateRetries
            && o.err == w.handler(fn, s.retry.maxImmediateRetries) && o.letter.None?
  {
    var last: nat := s.retry.maxImmediateRetries;
    RetriesAreConfigured(s, w, sink, topic, payload, attempt, fn, last);
    FirstDecisiveVerdict(s, w, sink, topic, payload, attempt, fn, last);
    VerdictOfTree(w.handler(fn, last));
  }

  // ----- the pipeline before the handler -----

  datatype Intake = OverCap | Undecodable | Invalid | Unroutable | Routed(env: Envelope, major: int)

  /** The cap before anything else, then decoding, validation and the major version. */
  function IntakeOf(s: Settings, codec: Codec, payload: string, attempt: Int64): Intake {
    if attempt > s.cap then OverCap
    else
      var env := codec.unmarshal(payload);
      if env.None? then Undecodable
      else if !ValidEnvelope(env.value) then Invalid
      else
        var major := MajorVersion(env.value.schemaVersion);
        if major.None? then Unroutable else Routed(env.value, major.value)
  }

  /** What follows once the pipeline has reached `intake`; `m` is the registry's answer for a routed event. */
  function OutcomeAt(s: Settings, w: World, sink: SinkState, topic: string, payload: string, attempt: Int64,
                     intake: Intake, m: Match): Outcome {
    match intake
    case OverCap =>
      var dl := WithBody(w.codec, NewLetter(s, topic, MaxAttemptsExceeded, CAP_ERROR, attempt), payload);
      DeadLettered(sink, w.codec, dl, MaxAttempts, CAP_ERROR, 0, 0)
    case Routed(_, _) =>
      if m.NoMatch? then Outcome(None, Skipped, NoCategory, NoHandler, None, 0, 0, None, false, false)
      else RetryOutcome(s, w, sink, topic, payload, attempt, m.fn)
    case _ =>
      var dl := NewLetter(s, topic, DeserializationFailed, DECODE_ERROR, attempt).(eventRaw := Some(payload));
      DeadLettered(sink, w.codec, dl, Deserialization, DECODE_ERROR, 0, 0)
  }

  ghost function Answer(log: seq<Registration>, topic: string, intake: Intake): Match
    requires Exclusive(log)
  {
    if intake.Routed? then Found(log, topic, intake.env.eventType, intake.major) else NoMatch
  }

  ghost function Dispatched(s: Settings, w: World, sink: SinkState, log: seq<Registration>,
                            topic: string, payload: string, metadata: map<string, string>): Outcome
    requires Exclusive(log)
  {
    var attempt := DeliveryAttempt(metadata);
    var intake := IntakeOf(s, w.codec, payload, attempt);
    OutcomeAt(s, w, sink, topic, payload, attempt, intake, Answer(log, topic, intake))
  }

  /** What holds of every outcome. */
  ghost predicate Sound(s: Settings, sink: SinkState, attempt: Int64, o: Outcome) {
    && (o.err.None? <==> o.kind.Processed? || o.kind.Skipped? || o.accepted)
    && !o.kind.Unset?
    && (o.accepted ==> o.offered && o.letter.Some? && sink.SinkAccepts?)
    && (o.letter.Some? <==> o.kind.Failed? && !o.category.RetryableFailure?)
    && (o.offered ==> o.letter.Some?)
    && (attempt > s.cap ==> o.calls == 0 && o.letter.Some? && o.category.MaxAttempts?)
    && o.calls <= 1 + (if s.retry.maxImmediateRetries < 0 then 0 else s.retry.maxImmediateRetries)
    && (o.kind.Processed? || o.category.RetryableFailure? || o.reason.Discarded? ==> 1 <= o.calls)
    && (o.kind.Skipped? <==> !o.reason.NoReason?)
  }

  lemma OutcomeSound(s: Settings, w: World, sink: SinkState, topic: string, payload: string, attempt: Int64,
                     intake: Intake, m: Match)
    requires attempt > s.cap ==> intake.OverCap?
    ensures Sound(s, sink, attempt, OutcomeAt(s, w, sink, topic, payload, attempt, intake, m))
  {
    if intake.Routed? && !m.NoMatch? {
      FirstDecisiveVerdict(s, w, sink, topic, payload, attempt, m.fn, LastCall(s, w, m.fn, 0));
    }
  }

  lemma OutcomeIsStated(s: Settings, w: World, sink: SinkState, topic: string, payload: string, attempt: Int64,
                        intake: Intake, m: Match)
    ensures !OutcomeAt(s, w, sink, topic, payload, attempt, intake, m).kind.Unset?
  {
  }

  lemma DispatchIsStated(s: Settings, w: World, sink: SinkState, log: seq<Registration>,
                         topic: string, payload: string, metadata: map<string, string>)
    requires Exclusive(log)
    ensures !Dispatched(s, w, sink, log, topic, payload, metadata).kind.Unset?
  {
    var attempt := DeliveryAttempt(metadata);
    var intake := IntakeOf(s, w.codec, payload, attempt);
    OutcomeIsStated(s, w, sink, topic, payload, attempt, intake, Answer(log, topic, intake));
  }

  /** dispatch returns nil exactly when the delivery was processed, was skipped, or its dead letter was
      accepted; an outcome is always stated; a letter is attempted only for a failure; an over-cap delivery
      calls no handler; a handler is called at most 1 + MaxImmediateRetries times. */
  lemma AckJustified(s: Settings, w: World, sink: SinkState, log: seq<Registration>,
                     topic: string, payload: string, metadata: map<string, string>)
    requires Exclusive(log)
    ensures Sound(s, sink, DeliveryAttempt(metadata), Dispatched(s, w, sink, log, topic, payload, metadata))
  {
    var attempt := DeliveryAttempt(metadata);
    var intake := IntakeOf(s, w.codec, payload, attempt);
    OutcomeSound(s, w, sink, topic, payload, attempt, intake, Answer(log, topic, intake));
  }

  /** A dead letter keeps the payload in exactly one of its two fields: as the event only when it is valid JSON,
      and always as raw bytes when the envelope was unusable. Reason, cause and the recorder's category name the stage
      that gave up on the delivery; group and consumer are the configured ones. */
  lemma LetterKeepsPayload(s: Settings, w: World, sink: SinkState, topic: string, payload: string, attempt: Int64,
                           intake: Intake, m: Match)
    requires OutcomeAt(s, w, sink, topic, payload, attempt, intake, m).letter.Some?
    ensures var o := OutcomeAt(s, w, sink, topic, payload, attempt, intake, m);
            var dl := o.letter.value;
            && dl.topic == topic && dl.attempts == attempt && dl.group == s.group && dl.consumer == s.consumer
            && (dl.event == Some(payload) <==> dl.eventRaw.None?)
            && (dl.event.None? <==> dl.eventRaw == Some(payload))
            && (dl.event.Some? <==> w.codec.valid(payload) && !dl.reason.DeserializationFailed?)
            && (dl.reason.MaxAttemptsExceeded? <==> intake.OverCap?)
            && (dl.reason.PermanentError? <==> intake.Routed?)
            && o.kind.Failed? && o.reason.NoReason? && o.cause == Some(dl.cause)
    ensures var o := OutcomeAt(s, w, sink, topic, payload, attempt, intake, m);
            match intake
            case OverCap => o.letter.value.cause == CAP_ERROR && o.category.MaxAttempts? && o.calls == 0
            case Routed(_, _) =>
              && !m.NoMatch? && 1 <= o.calls && o.category.PermanentFailure?
              && o.cause == w.handler(m.fn, o.calls - 1) && IsPermanent(o.cause)
            case _ => o.letter.value.cause == DECODE_ERROR && o.category.Deserialization? && o.calls == 0
  {
  }

  // ----- dispatch over the registrations -----

  /** The envelope of a payload that passes decoding, validation and the version check, and the major it routes by. */
  predicate Usable(codec: Codec, payload: string, env: Envelope, major: int) {
    codec.unmarshal(payload) == Some(env) && ValidEnvelope(env) && MajorVersion(env.schemaVersion) == Some(major)
  }

  /** The registration is for this event. */
  predicate Handles(r: Registration, topic: string, env: Envelope, major: int) {
    match r
    case Raw(t, _) => t == topic
    case Typed(key, _) => key == RouteKey(topic, env.eventType, major)
  }

  /** What a delivery is stated as, and whether it is nacked, by the verdict of its last handler call. */
  ghost predicate StatedByVerdict(o: Outcome, verdict: Option<Error>) {
    && (verdict.None? ==> o.kind.Processed? && o.err.None? && o.letter.None?)
    && (IsDiscard(verdict) ==> o.kind.Skipped? && o.reason.Discarded? && o.err.None? && o.letter.None?)
    && (IsPermanent(verdict) ==> o.kind.Failed? && o.category.PermanentFailure? && o.letter.Some? && o.cause == verdict)
    && (IsRetryable(verdict) ==>
         o.kind.Failed? && o.category.RetryableFailure? && o.letter.None? && o.err == verdict == o.cause)
  }

  /** What dispatch comes to, by the attempt and the payload alone, when no handler is looked up: over the cap, or
      unusable. */
  lemma DispatchRefuses(s: Settings, w: World, sink: SinkState, log: seq<Registration>,
                        topic: string, payload: string, metadata: map<string, string>)
    requires Exclusive(log)
    ensures var o := Dispatched(s, w, sink, log, topic, payload, metadata);
            && (DeliveryAttempt(metadata) > s.cap ==>
                 o.kind.Failed? && o.category.MaxAttempts? && o.calls == o.retries == 0 && o.letter.Some?)
            && (DeliveryAttempt(metadata) <= s.cap && (forall env, major :: !Usable(w.codec, payload, env, major)) ==>
                 o.kind.Failed? && o.category.Deserialization? && o.calls == o.retries == 0 && o.letter.Some?)
  {
    RoutedIsUsable(s, w.codec, payload, DeliveryAttempt(metadata));
  }

  /** Within the cap, a usable event that no accepted registration is for is skipped as such. */
  lemma DispatchSkips(s: Settings, w: World, sink: SinkState, log: seq<Registration>,
                      topic: string, payload: string, metadata: map<string, string>, env: Envelope, major: int)
    requires Exclusive(log) && DeliveryAttempt(metadata) <= s.cap && Usable(w.codec, payload, env, major)
    requires forall r :: r in log ==> !Handles(r, topic, env, major)
    ensures var o := Dispatched(s, w, sink, log, topic, payload, metadata);
            o.kind.Skipped? && o.reason.NoHandler? && o.err.None? && o.letter.None? && o.calls == o.retries == 0
  {
    OneAnswer(log, topic, env, major);
  }

  /** Within the cap, a usable event goes to the handler of the registration that is for it, and its last verdict decides. */
  lemma DispatchHandles(s: Settings, w: World, sink: SinkState, log: seq<Registration>, topic: string, payload: string,
                        metadata: map<string, string>, env: Envelope, major: int, r: Registration)
    requires Exclusive(log) && DeliveryAttempt(metadata) <= s.cap && Usable(w.codec, payload, env, major)
    requires r in log && Handles(r, topic, env, major)
    ensures var o := Dispatched(s, w, sink, log, topic, payload, metadata);
            && o == RetryOutcome(s, w, sink, topic, payload, DeliveryAttempt(metadata), r.fn)
            && 1 <= o.calls && StatedByVerdict(o, w.handler(r.fn, o.calls - 1))
  {
    OneAnswer(log, topic, env, major);
    VerdictStates(s, w, sink, topic, payload, DeliveryAttempt(metadata), r.fn);
  }

  lemma VerdictStates(s: Settings, w: World, sink: SinkState, topic: string, payload: string, attempt: Int64, fn: Handler)
    ensures var o := RetryOutcome(s, w, sink, topic, payload, attempt, fn);
            1 <= o.calls && StatedByVerdict(o, w.handler(fn, o.calls - 1))
  {
    VerdictOfTree(w.handler(fn, LastCall(s, w, fn, 0)));
  }

  lemma RoutedIsUsable(s: Settings, codec: Codec, payload: string, attempt: Int64)
    ensures var intake := IntakeOf(s, codec, payload, attempt);
            && (intake.OverCap? <==> attempt > s.cap)
            && (intake.Routed? ==> Usable(codec, payload, intake.env, intake.major))
  {
  }

  lemma OneAnswer(log: seq<Registration>, topic: string, env: Envelope, major: int)
    requires Exclusive(log)
    ensures (forall r :: r in log ==> !Handles(r, topic, env, major)) ==> Found(log, topic, env.eventType, major).NoMatch?
    ensures forall r :: r in log && Handles(r, topic, env, major) ==>
              Found(log, topic, env.eventType, major) == (if r.Raw? then RawMatch(r.fn) else TypedMatch(r.fn))
  {
    var m := Found(log, topic, env.eventType, major);
    if m.RawMatch? {
      assert Handles(Raw(topic, m.fn), topic, env, major);
    }
    if m.TypedMatch? {
      assert Handles(Typed(RouteKey(topic, env.eventType, major), m.fn), topic, env, major);
    }
    forall r | r in log && Handles(r, topic, env, major)
      ensures m == (if r.Raw? then RawMatch(r.fn) else TypedMatch(r.fn))
    {
      ScanIsUnique(log, topic, env.eventType, major, m, if r.Raw? then RawMatch(r.fn) else TypedMatch(r.fn));
    }
  }

  /** Collapsing the backoff changes no verdict, no handler call and no retry while the context stays live. */
  lemma CollapsedBackoffAgrees(s: Settings, w: World, sink: SinkState, log: seq<Registration>,
                               topic: string, payload: string, metadata: map<string, string>)
    requires Exclusive(log) && forall i: nat :: w.ctx(i).Live?
    ensures Dispatched(s, w.(noBackoff := true), sink, log, topic, payload, metadata)
         == Dispatched(s, w.(noBackoff := false), sink, log, topic, payload, metadata)
  {
    var attempt := DeliveryAttempt(metadata);
    var intake := IntakeOf(s, w.codec, payload, attempt);
    CollapsedAt(s, w, sink, topic, payload, attempt, intake, Answer(log, topic, intake));
  }

  lemma CollapsedAt(s: Settings, w: World, sink: SinkState, topic: string, payload: string, attempt: Int64,
                    intake: Intake, m: Match)
    requires forall i: nat :: w.ctx(i).Live?
    ensures OutcomeAt(s, w.(noBackoff := true), sink, topic, payload, attempt, intake, m)
         == OutcomeAt(s, w.(noBackoff := false), sink, topic, payload, attempt, intake, m)
  {
    if intake.Routed? && !m.NoMatch? {
      LastCallAgrees(s, w, m.fn, 0);
    }
  }

  lemma {:induction false} LastCallAgrees(s: Settings, w: World, fn: Handler, i: nat)
    requires forall k: nat :: w.ctx(k).Live?
    ensures LastCall(s, w.(noBackoff := true), fn, i) == LastCall(s, w.(noBackoff := false), fn, i)
    decreases Retries(s.retry) - i
  {
    if GoesOn(s, w.(noBackoff := false), fn, i) {
      LastCallAgrees(s, w, fn, i + 1);
    }
  }
}
