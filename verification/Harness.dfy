/** messagingtest.Dispatch (testing/dispatch.go): the real consume path against a probe, and its verdict. */
module Harness {
  import opened Basics
  import opened Strconv
  import opened Errors
  import opened Validation
  import opened Telemetry
  import opened RegistryModel
  import opened DispatchSpec
  import opened ConsumerModel

  datatype Verdict = WasProcessed | WasSkipped | WasDeadLettered | WasNacked

  datatype Result = Result(outcome: Verdict, reason: Reason, category: Category, err: Option<Error>, letters: seq<DeadLetter>)

  datatype HarnessError = NilConsumer | CannotMarshal

  datatype DispatchOption =
    | WithDeliveryAttempt(n: Int64) | WithMetadata(md: map<string, string>) | WithRealBackoff
    | WithFailingDLQ(dlqErr: Option<Error>)

  datatype Options = Options(attempt: Int64, metadata: map<string, string>, realBackoff: bool, dlqErr: Option<Error>)

  function Apply(o: Options, opt: DispatchOption): Options {
    match opt
    case WithDeliveryAttempt(n) => o.(attempt := n)
    case WithMetadata(md) => o.(metadata := md)
    case WithRealBackoff => o.(realBackoff := true)
    case WithFailingDLQ(e) => o.(dlqErr := e)
  }

  /** The options in effect: each applied in order to the defaults. */
  function InEffect(opts: seq<DispatchOption>): Options {
    if opts == [] then Options(1, map[], false, None)
    else Apply(InEffect(opts[..|opts| - 1]), opts[|opts| - 1])
  }

  /** The caller's metadata, with the library's own key on top. */
  function Stamped(o: Options): map<string, string> {
    o.metadata[ATTEMPT_KEY := FormatInt(o.attempt)]
  }

  function SinkOf(o: Options): SinkState {
    if o.dlqErr.None? then SinkAccepts else SinkFails
  }

  /** An option that sets the same thing as `opt`. */
  predicate SameSetting(a: DispatchOption, b: DispatchOption) {
    match a
    case WithDeliveryAttempt(_) => b.WithDeliveryAttempt?
    case WithMetadata(_) => b.WithMetadata?
    case WithRealBackoff => b.WithRealBackoff?
    case WithFailingDLQ(_) => b.WithFailingDLQ?
  }

  ghost predicate Untouched(opts: seq<DispatchOption>, opt: DispatchOption, from: nat) {
    forall j :: from <= j < |opts| ==> !SameSetting(opts[j], opt)
  }

  /** Without an option the harness dispatches a first delivery with no metadata, a collapsed backoff and a DLQ that
      works. */
  lemma {:induction false} Defaults(opts: seq<DispatchOption>)
    ensures Untouched(opts, WithDeliveryAttempt(1), 0) ==> InEffect(opts).attempt == 1
    ensures Untouched(opts, WithMetadata(map[]), 0) ==> InEffect(opts).metadata == map[]
    ensures Untouched(opts, WithRealBackoff, 0) ==> !InEffect(opts).realBackoff
    ensures Untouched(opts, WithFailingDLQ(None), 0) ==> InEffect(opts).dlqErr.None?
  {
    if opts != [] {
      Defaults(opts[..|opts| - 1]);
    }
  }

  /** Of the options that set the same thing the last one counts, whatever else is set. */
  lemma {:induction false} LastOptionCounts(opts: seq<DispatchOption>, i: nat)
    requires i < |opts| && Untouched(opts, opts[i], i + 1)
    ensures match opts[i]
            case WithDeliveryAttempt(n) => InEffect(opts).attempt == n
            case WithMetadata(md) => InEffect(opts).metadata == md
            case WithRealBackoff => InEffect(opts).realBackoff
            case WithFailingDLQ(e) => InEffect(opts).dlqErr == e
  {
    if i < |opts| - 1 {
      LastOptionCounts(opts[..|opts| - 1], i);
    }
  }

  method SettleOptions(opts: seq<DispatchOption>) returns (o: Options)
    ensures o == InEffect(opts)
  {
    o := Options(1, map[], false, None);
    for i := 0 to |opts|
      invariant o == InEffect(opts[..i])
    {
      o := Apply(o, opts[i]);
      assert opts[..i + 1][..i] == opts[..i];
    }
    assert opts[..|opts|] == opts;
  }

  method StampMetadata(o: Options) returns (metadata: map<string, string>)
    ensures metadata == Stamped(o) && metadata.Keys == o.metadata.Keys + {"_foi_delivery_attempt"}
    ensures metadata["_foi_delivery_attempt"] == FormatInt(o.attempt)
    ensures forall key :: key in o.metadata && key != ATTEMPT_KEY ==> metadata[key] == o.metadata[key]
  {
    metadata := map[];
    var rest := o.metadata.Keys;
    while rest != {}
      invariant rest <= o.metadata.Keys
      invariant metadata.Keys == o.metadata.Keys - rest
      invariant forall k :: k in metadata ==> metadata[k] == o.metadata[k]
      decreases |rest|
    {
      var k :| k in rest;
      metadata := metadata[k := o.metadata[k]];
      rest := rest - {k};
    }
    assert metadata == o.metadata;
    metadata := metadata[ATTEMPT_KEY := FormatInt(o.attempt)];
  }

  /** What the harness must report about a delivery that came to `o`. */
  predicate Reports(res: Result, o: Outcome) {
    && (res.outcome.WasNacked? <==> o.err.Some?)
    && (res.outcome.WasDeadLettered? <==> o.accepted)
    && (res.outcome.WasProcessed? <==> o.kind.Processed?)
    && (res.outcome.WasSkipped? <==> o.kind.Skipped?)
    && res.reason == o.reason && res.category == o.category
    && res.err == (if o.err.Some? then o.err else o.cause)
    && (if o.accepted then o.letter.Some? && res.letters == [o.letter.value] else res.letters == [])
  }

  /** The result as the harness derives it from the probe, the letters and the error. */
  function Derived(stated: Stated, letters: seq<DeadLetter>, err: Option<Error>): Result {
    Result(
      if letters != [] then WasDeadLettered
      else if stated.kind.Failed? then WasNacked
      else if stated.kind.Skipped? then WasSkipped
      else WasProcessed,
      stated.reason, stated.category, if err.Some? then err else stated.err, letters)
  }

  lemma DerivedReports(s: Settings, sink: SinkState, attempt: Int64, o: Outcome)
    requires Sound(s, sink, attempt, o)
    ensures Reports(Derived(StatedBy(o), Present(sink.SinkAccepts?, 0, []).After(o).letters, o.err), o)
  {
  }

  /** The error is a harness failure; a delivery that failed is in the result. The result says what the consume
      path came to: nacked exactly when it returned an error, dead-lettered exactly when the sink took the letter.
      The application's own sink is left alone. */
  method Dispatch(c: Dispatcher?, topic: string, e: Envelope, opts: seq<DispatchOption>, w: World)
    returns (res: Result, harness: Option<HarnessError>)
    requires c != null ==> c.registry.Valid()
    modifies if c == null then {} else {c.inst}, if c == null || c.dlq == null then {} else {c.dlq}
    ensures harness == if c == null then Some(NilConsumer)
                       else if w.codec.marshal(e).None? then Some(CannotMarshal) else None
    ensures harness.None? ==>
              var o := InEffect(opts);
              Reports(res, Dispatched(c.settings, w.(noBackoff := !o.realBackoff), SinkOf(o), c.registry.accepted,
                                      topic, w.codec.marshal(e).value, Stamped(o)))
    ensures harness.None? && InEffect(opts).dlqErr.Some? ==> !res.outcome.WasDeadLettered? && res.letters == []
    ensures c != null ==> See(c.dlq) == old(See(c.dlq))
    ensures c != null && harness.Some? ==> c.inst.counters == old(c.inst.counters)
  {
    res := Result(WasProcessed, NoReason, NoCategory, None, []);
    if c == null {
      return res, Some(NilConsumer);
    }
    var o := SettleOptions(opts);
    var body := w.codec.marshal(e);
    if body.None? {
      return res, Some(CannotMarshal);
    }
    var metadata := StampMetadata(o);
    var sink := new Sink(o.dlqErr.None?);
    var probe := new Probe();
    ghost var w' := w.(noBackoff := !o.realBackoff);
    ghost var log := c.registry.accepted;
    AckJustified(c.settings, w', SinkOf(o), log, topic, body.value, metadata);
    DerivedReports(c.settings, SinkOf(o), DeliveryAttempt(metadata),
                   Dispatched(c.settings, w', SinkOf(o), log, topic, body.value, metadata));
    var err, _, _ := c.Dispatch(w.(noBackoff := !o.realBackoff), sink, probe, topic, body.value, metadata);
    res := Derived(Reading(probe), sink.letters, err);
    harness := None;
  }

  /** The harness agrees with production: with the same DLQ behaviour and a context that stays live, a delivery
      of the same bytes under the same attempt number comes to the same outcome, whatever else its metadata holds
      and whether or not the backoff was collapsed. */
  lemma HarnessAgrees(s: Settings, w: World, log: seq<Registration>, topic: string, payload: string,
                      opts: seq<DispatchOption>, metadata: map<string, string>)
    requires Exclusive(log) && forall i: nat :: w.ctx(i).Live?
    requires DeliveryAttempt(metadata) == if InEffect(opts).attempt < 1 then 1 else InEffect(opts).attempt
    ensures Dispatched(s, w.(noBackoff := !InEffect(opts).realBackoff), SinkOf(InEffect(opts)), log, topic, payload,
                       Stamped(InEffect(opts)))
         == Dispatched(s, w.(noBackoff := false), SinkOf(InEffect(opts)), log, topic, payload, metadata)
  {
    var o := InEffect(opts);
    StampedAttemptSurvives(o.metadata, o.attempt);
    CollapsedBackoffAgrees(s, w, SinkOf(o), log, topic, payload, metadata);
  }
}
