/** Publish of publisher.go, and its agreement with the consume path. */
module PublisherModel {
  import opened Basics
  import opened Strconv
  import opened Validation
  import opened RegistryModel
  import opened DispatchSpec
  import opened Lifecycle

  datatype PublishStage = ValidationStage | MarshalStage | TransportStage

  datatype PublishError = TopicRequired | AtStage(stage: PublishStage)

  /** What the environment supplies to one call: the correlation id on the context, the generated ids (None when
      generation fails), and whether the transport takes the write. */
  datatype PublishWorld = PublishWorld(
    codec: Codec, onContext: Option<string>, correlation: Option<string>, eventId: Option<string>, transport: bool)

  datatype Record = Record(stream: string, id: string, body: string)

  /** resolveCorrelationID: the option, else the context's id, else a generated one. */
  function Correlation(explicit: string, w: PublishWorld): Option<string> {
    if explicit != "" then Some(explicit)
    else if w.onContext.Some? && w.onContext.value != "" then w.onContext
    else w.correlation
  }

  /** WithCorrelationID options apply in order. */
  function Chosen(opts: seq<string>): string {
    if opts == [] then "" else opts[|opts| - 1]
  }

  function NewEnvelope(def: EventDef, source: string, correlationId: string, eventId: string, payload: string): Envelope {
    Envelope(eventId, def.eventType, def.version, source, correlationId, true, payload)
  }

  /** The envelope a call would send, when both ids can be had. */
  function Built(def: EventDef, source: string, opts: seq<string>, payload: string, w: PublishWorld): Option<Envelope> {
    var cid := Correlation(Chosen(opts), w);
    if cid.None? || w.eventId.None? then None
    else Some(NewEnvelope(def, source, cid.value, w.eventId.value, payload))
  }

  function PublishVerdict(def: EventDef, source: string, opts: seq<string>, payload: string, w: PublishWorld): Option<PublishError> {
    var env := Built(def, source, opts, payload, w);
    if def.topic == "" then Some(TopicRequired)
    else if env.None? || !ValidEnvelope(env.value) then Some(AtStage(ValidationStage))
    else if w.codec.marshal(env.value).None? then Some(AtStage(MarshalStage))
    else if !w.transport then Some(AtStage(TransportStage))
    else None
  }

  class Publisher {
    const source: string
    const prefix: string
    var sent: seq<Record>
    var published: nat
    var failures: multiset<PublishStage>

    constructor (source: string, prefix: string)
      ensures this.source == source && this.prefix == prefix && sent == [] && published == 0 && failures == multiset{}
    {
      this.source, this.prefix := source, prefix;
      sent, published, failures := [], 0, multiset{};
    }

    method Fail(stage: PublishStage) returns (err: Option<PublishError>)
      modifies `failures
      ensures failures == old(failures) + multiset{stage} && err == Some(AtStage(stage))
    {
      failures := failures + multiset{stage};
      err := Some(AtStage(stage));
    }

    /** One call, in the code's stage order: exactly one record when everything succeeds, otherwise none and one
        counted failure at the first stage that fails (a missing topic is not counted). */
    method Publish(def: EventDef, payload: string, opts: seq<string>, w: PublishWorld) returns (err: Option<PublishError>)
      modifies `sent, `published, `failures
      ensures err == PublishVerdict(def, source, opts, payload, w)
      ensures err.None? ==>
                var env := Built(def, source, opts, payload, w).value;
                && sent == old(sent) + [Record(prefix + ":" + def.topic, env.eventId, w.codec.marshal(env).value)]
                && published == old(published) + 1 && failures == old(failures)
      ensures err.Some? ==> sent == old(sent) && published == old(published)
      ensures err.Some? ==> failures == old(failures) + if err.value.AtStage? then multiset{err.value.stage} else multiset{}
    {
      if def.topic == "" {
        return Some(TopicRequired);
      }
      var explicit := "";
      for i := 0 to |opts|
        invariant explicit == Chosen(opts[..i])
      {
        explicit := opts[i];
      }
      assert opts[..|opts|] == opts;
      var cid := Correlation(explicit, w);
      if cid.None? {
        err := Fail(ValidationStage);
        return;
      }
      if w.eventId.None? {
        err := Fail(ValidationStage);
        return;
      }
      var env := NewEnvelope(def, source, cid.value, w.eventId.value, payload);
      if !ValidEnvelope(env) {
        err := Fail(ValidationStage);
        return;
      }
      var body := w.codec.marshal(env);
      if body.None? {
        err := Fail(MarshalStage);
        return;
      }
      if !w.transport {
        err := Fail(TransportStage);
        return;
      }
      sent := sent + [Record(StreamName(prefix, def.topic), env.eventId, body.value)];
      published := published + 1;
      err := None;
    }
  }

  // ----- what is sent, and what is refused -----

  /** The correlation id of a call: that of the last option when it is not empty, else a non-empty one on the context,
      else the generated one. */
  predicate Correlates(opts: seq<string>, w: PublishWorld, cid: string) {
    var explicit := opts != [] && opts[|opts| - 1] != "";
    var inherited := w.onContext.Some? && w.onContext.value != "";
    && (explicit ==> cid == opts[|opts| - 1])
    && (!explicit && inherited ==> Some(cid) == w.onContext)
    && (!explicit && !inherited ==> Some(cid) == w.correlation)
  }

  /** A record that was sent, read back through a faithful codec, names the definition, the publisher and the ids of
      the call. */
  lemma SentSaysWhatWasAsked(def: EventDef, source: string, opts: seq<string>, payload: string, w: PublishWorld)
    requires Faithful(w.codec) && PublishVerdict(def, source, opts, payload, w).None?
    ensures Built(def, source, opts, payload, w).value.payload == payload
    ensures var read := w.codec.unmarshal(w.codec.marshal(Built(def, source, opts, payload, w).value).value);
            && read.Some?
            && Some(read.value.eventId) == w.eventId && read.value.source == source
            && read.value.eventType == def.eventType && read.value.schemaVersion == def.version
            && read.value.hasTimestamp && Correlates(opts, w, read.value.correlationId)
  {
    var env := Built(def, source, opts, payload, w).value;
    assert ReadsBack(w.codec, env, w.codec.marshal(env).value);
  }

  /** Some correlation id can be had for the call, and it is not empty. */
  predicate HasCorrelation(opts: seq<string>, w: PublishWorld) {
    || (opts != [] && opts[|opts| - 1] != "")
    || (w.onContext.Some? && w.onContext.value != "")
    || (w.correlation.Some? && w.correlation.value != "")
  }

  /** Which calls fail, and where: without a topic; at validation when an id cannot be had or is empty, the source is
      empty, or type or version do not match their patterns; then at marshalling; then at the transport. */
  lemma FailsAtStage(def: EventDef, source: string, opts: seq<string>, payload: string, w: PublishWorld)
    ensures var err := PublishVerdict(def, source, opts, payload, w);
            var valid := HasCorrelation(opts, w) && w.eventId.Some? && w.eventId.value != "" && source != ""
                         && IsEventType(def.eventType) && IsSchemaVersion(def.version);
            && (err == Some(TopicRequired) <==> def.topic == "")
            && (err == Some(AtStage(ValidationStage)) <==> def.topic != "" && !valid)
            && (def.topic != "" && valid ==>
                 var env := Built(def, source, opts, payload, w);
                 && env.Some?
                 && (err == Some(AtStage(MarshalStage)) <==> w.codec.marshal(env.value).None?)
                 && (err == Some(AtStage(TransportStage)) <==> w.codec.marshal(env.value).Some? && !w.transport)
                 && (err.None? <==> w.codec.marshal(env.value).Some? && w.transport))
  {
  }

  // ----- what the consume path makes of it -----

  /** What Unmarshal reads back of a marshalled envelope has the same header fields; the payload's text may be
      laid out differently. */
  ghost predicate Faithful(codec: Codec) {
    forall e :: codec.marshal(e).Some? ==> ReadsBack(codec, e, codec.marshal(e).value)
  }

  ghost predicate ReadsBack(codec: Codec, e: Envelope, body: string) {
    var read := codec.unmarshal(body);
    read.Some? && read.value == e.(payload := read.value.payload)
  }

  /** The leading digit run of a well-formed version. */
  lemma LeadingDigits(version: string)
    requires IsSchemaVersion(version)
    ensures Digits(Cut(version).0)
    ensures MajorVersion(version) == if Value(Cut(version).0) <= MAX_INT64 then Some(Value(Cut(version).0)) else None
  {
    SchemaVersionPattern(version);
    var a, b, c :| Digits(a) && Digits(b) && Digits(c) && version == a + "." + b + "." + c;
    DottedDigits(a, b, c);
    RoutableVersion(a, b, c);
  }

  /** Whatever Publish accepts passes the consumer's decoding and validation, and reaches the registry exactly
      when the leading digit run of its version fits in an int; the route's major is that run's value. */
  lemma AcceptedIsRoutedIff(s: Settings, def: EventDef, source: string, opts: seq<string>, payload: string,
                            w: PublishWorld, attempt: Int64)
    requires Faithful(w.codec) && PublishVerdict(def, source, opts, payload, w).None? && attempt <= s.cap
    ensures var env := Built(def, source, opts, payload, w).value;
            var run, intake := Cut(def.version).0, IntakeOf(s, w.codec, w.codec.marshal(env).value, attempt);
            && Digits(run)
            && (intake.Routed? <==> Value(run) <= MAX_INT64)
            && (intake.Routed? ==> intake.major == Value(run) && intake.env == env.(payload := intake.env.payload))
            && (!intake.Routed? ==> intake.Unroutable?)
  {
    var env := Built(def, source, opts, payload, w).value;
    assert ReadsBack(w.codec, env, w.codec.marshal(env).value);
    LeadingDigits(def.version);
  }

  /** A definition a handler can be registered for is one that Publish can send, given ids, a marshaller and a
      transport that work; and the event then reaches that very handler. */
  lemma PublishedReachesHandler(s: Settings, def: EventDef, source: string, opts: seq<string>, payload: string,
                                pw: PublishWorld, w: World, sink: SinkState, log: seq<Registration>, fn: Handler,
                                metadata: map<string, string>)
    requires DefError(def).None? && Exclusive(log) && RegistrationOf(def, fn) in log
    requires Built(def, source, opts, payload, pw).Some? && source != "" && pw.eventId != Some("") && pw.transport
    requires pw.correlation != Some("") && pw.codec.marshal(Built(def, source, opts, payload, pw).value).Some?
    requires Faithful(pw.codec) && w.codec == pw.codec && DeliveryAttempt(metadata) <= s.cap
    ensures PublishVerdict(def, source, opts, payload, pw).None?
    ensures var body := pw.codec.marshal(Built(def, source, opts, payload, pw).value).value;
            Dispatched(s, w, sink, log, def.topic, body, metadata)
            == RetryOutcome(s, w, sink, def.topic, body, DeliveryAttempt(metadata), fn)
  {
    var attempt := DeliveryAttempt(metadata);
    AcceptedIsRoutedIff(s, def, source, opts, payload, pw, attempt);
    LeadingDigits(def.version);
    var major := MajorVersion(def.version).value;
    ScanIsUnique(log, def.topic, def.eventType, major, TypedMatch(fn), Found(log, def.topic, def.eventType, major));
  }

  const OVERSIZED := FormatNat(MAX_INT64 + 1) + "." + "0" + "." + "0"

  lemma OversizedVersion()
    ensures OVERSIZED != "" && IsSchemaVersion(OVERSIZED) && MajorVersion(OVERSIZED).None? && IsEventType("a.b")
  {
    FormatNatDigits(MAX_INT64 + 1);
    RoutableVersion(FormatNat(MAX_INT64 + 1), "0", "0");
    EventTypePattern("a.b");
    assert IsSegment("a") && IsSegment("b") && "a.b" == "a" + "." + "b";
  }

  /** Publish does not look at the major version: one past the largest int is accepted, and then dead-lettered by
      every consumer. */
  lemma OversizedMajorPublishes(s: Settings, topic: string, source: string, payload: string, w: PublishWorld,
                                attempt: Int64)
    requires topic != "" && source != "" && w.transport && Faithful(w.codec) && attempt <= s.cap
    requires w.eventId == Some("e") && w.correlation == Some("c") && w.onContext.None?
    requires forall e :: w.codec.marshal(e).Some?
    ensures var def := EventDef(topic, "a.b", OVERSIZED);
            && PublishVerdict(def, source, [], payload, w).None?
            && DefError(def) == Some(MajorTooLarge)
            && IntakeOf(s, w.codec, w.codec.marshal(Built(def, source, [], payload, w).value).value, attempt).Unroutable?
  {
    OversizedVersion();
    AcceptedIsRoutedIff(s, EventDef(topic, "a.b", OVERSIZED), source, [], payload, w, attempt);
    LeadingDigits(OVERSIZED);
  }
}
