/** The Consumer of consumer.go: dispatch, the retry loop and dead-lettering as they run, each proved equal
    to what DispatchSpec says a delivery must come to. */
module ConsumerModel {
  import opened Basics
  import opened Strconv
  import opened Errors
  import opened Validation
  import opened Backoff
  import opened Telemetry
  import opened RegistryModel
  import opened DispatchSpec

  /** A DLQ writer. `works` is what the broker does with the next write. */
  class Sink {
    var letters: seq<DeadLetter>
    var attempts: nat
    var works: bool

    constructor (works: bool)
      ensures letters == [] && attempts == 0 && this.works == works
    {
      letters, attempts, this.works := [], 0, works;
    }

    method Publish(dl: DeadLetter) returns (err: Option<Error>)
      modifies `letters, `attempts
      ensures attempts == old(attempts) + 1
      ensures err == (if works then None else Some(PUBLISH_ERROR))
      ensures letters == if works then old(letters) + [dl] else old(letters)
    {
      attempts := attempts + 1;
      if works {
        letters := letters + [dl];
        err := None;
      } else {
        err := Some(PUBLISH_ERROR);
      }
    }
  }

  /** What can be seen of a sink, which may be absent. */
  datatype SinkView = Absent | Present(works: bool, attempts: nat, letters: seq<DeadLetter>) {
    function Mode(): SinkState {
      if Absent? then NoSink else if works then SinkAccepts else SinkFails
    }

    /** After a delivery with outcome `o`: asked at most once, and grown by exactly its letter if accepted. */
    function After(o: Outcome): SinkView {
      if Absent? then this
      else this.(attempts := attempts + One(o.offered),
                 letters := if o.accepted && o.letter.Some? then letters + [o.letter.value] else letters)
    }
  }

  function See(sink: Sink?): SinkView
    reads sink
  {
    if sink == null then Absent else Present(sink.works, sink.attempts, sink.letters)
  }

  /** What the recorder holds. */
  function StatedIn(rec: DeliveryRecorder): Stated
    reads rec
  {
    Stated(rec.kind, rec.category, rec.reason, rec.err)
  }

  function StatedBy(o: Outcome): Stated {
    Stated(o.kind, o.category, o.reason, o.cause)
  }

  /** The retries and the dead letter of a delivery with outcome `o`. */
  function Counted(c: Counters, o: Outcome): Counters {
    var d := c.(retries := c.retries + o.retries);
    if o.offered then WithLetter(d, o.accepted) else d
  }

  /** What the instruments show after a delivery with outcome `o`. */
  function Recorded(c: Counters, o: Outcome): Counters {
    Ended(Counted(c.(received := c.received + 1), o), o.kind, o.category, o.reason)
  }

  lemma RecordedInSteps(before: Counters, decided: Counters, after: Counters, o: Outcome)
    requires decided == Counted(before.(received := before.received + 1), o)
    requires after == Ended(decided, o.kind, o.category, o.reason)
    ensures after == Recorded(before, o)
  {
  }

  /** What each counter gains from a delivery that came to `o`. */
  lemma CountersTell(c: Counters, o: Outcome)
    requires !o.kind.Unset? && (o.accepted ==> o.offered)
    ensures var d := Recorded(c, o);
            && d.received == c.received + 1 && d.durations == c.durations + 1 && d.retries == c.retries + o.retries
            && d.processed == c.processed + One(o.kind.Processed?)
            && d.skipped == c.skipped + (if o.kind.Skipped? then multiset{o.reason} else multiset{})
            && d.failed == c.failed + (if o.kind.Failed? then multiset{o.category} else multiset{})
            && d.dlq == c.dlq + One(o.accepted) && d.dlqFailures == c.dlqFailures + One(o.offered && !o.accepted)
  {
  }

  lemma CountedByVerdict(c: Counters, o: Outcome, verdict: Option<Error>)
    requires StatedByVerdict(o, verdict) && !o.kind.Unset? && (o.accepted ==> o.offered)
    ensures var d := Recorded(c, o);
            && d.processed == c.processed + One(verdict.None?)
            && d.skipped == c.skipped + (if IsDiscard(verdict) then multiset{Discarded} else multiset{})
            && d.failed == c.failed + (if IsPermanent(verdict) then multiset{PermanentFailure}
                                       else if IsRetryable(verdict) then multiset{RetryableFailure} else multiset{})
  {
    CountersTell(c, o);
    VerdictOfTree(verdict);
  }

  /** A delivery that reaches a handler is counted by its last verdict: processed exactly when that is nil, skipped as
      discarded, or failed as permanent or retryable. */
  lemma VerdictCounts(c: Counters, s: Settings, w: World, sink: SinkState, log: seq<Registration>, topic: string,
                      payload: string, metadata: map<string, string>, env: Envelope, major: int, r: Registration)
    requires Exclusive(log) && DeliveryAttempt(metadata) <= s.cap && Usable(w.codec, payload, env, major)
    requires r in log && Handles(r, topic, env, major)
    ensures var o := Dispatched(s, w, sink, log, topic, payload, metadata);
            && 1 <= o.calls
            && var d, verdict := Recorded(c, o), w.handler(r.fn, o.calls - 1);
               && d.processed == c.processed + One(verdict.None?)
               && d.skipped == c.skipped + (if IsDiscard(verdict) then multiset{Discarded} else multiset{})
               && d.failed == c.failed + (if IsPermanent(verdict) then multiset{PermanentFailure}
                                          else if IsRetryable(verdict) then multiset{RetryableFailure} else multiset{})
  {
    var o := Dispatched(s, w, sink, log, topic, payload, metadata);
    DispatchHandles(s, w, sink, log, topic, payload, metadata, env, major, r);
    AckJustified(s, w, sink, log, topic, payload, metadata);
    CountedByVerdict(c, o, w.handler(r.fn, o.calls - 1));
  }

  /** The dead letter of an entry that never became a message. */
  function RawLetter(s: Settings, topic: string, rawFields: Option<string>): DeadLetter {
    NewLetter(s, topic, DeserializationFailed, DECODE_ERROR, 1).(eventRaw := rawFields)
  }

  /** What the subscriber's hook comes to: its error, whether the entry was counted as received, and whether a DLQ
      write was attempted and accepted. */
  datatype HookOutcome = HookOutcome(err: Option<Error>, received: bool, written: Option<bool>)

  function HookResult(s: Settings, sink: SinkState, topicByStream: map<string, string>, stream: string,
                      rawFields: Option<string>, codec: Codec): HookOutcome
  {
    if stream !in topicByStream then HookOutcome(Some(DECODE_ERROR), false, None)
    else if rawFields.None? then HookOutcome(Some(ENCODE_ERROR), true, None)
    else
      var dl := RawLetter(s, topicByStream[stream], rawFields);
      HookOutcome(LetterError(sink, codec, dl), true,
                  if Offered(sink, codec, dl) then Some(LetterError(sink, codec, dl).None?) else None)
  }

  /** What the instruments show after the hook. */
  function Hooked(c: Counters, h: HookOutcome): Counters {
    var d := c.(received := c.received + One(h.received));
    if h.written.Some? then WithLetter(d, h.written.value) else d
  }

  lemma SleepsGrow(r: RetryConfig, sleeps: seq<int>, slept: nat)
    requires Jittered(r, sleeps) && |sleeps| < Retries(r)
    requires var upper := Doubling(r.initialBackoff, r.maxBackoff, |sleeps|); if upper <= 0 then slept == 0 else slept < upper
    ensures Jittered(r, sleeps + [slept]) && Total(sleeps + [slept]) == Total(sleeps) + slept
  {
    var more := sleeps + [slept];
    assert more[..|sleeps|] == sleeps;
    forall i | 0 <= i < |more|
      ensures var upper := Doubling(r.initialBackoff, r.maxBackoff, i);
              0 <= more[i] && (if upper <= 0 then more[i] == 0 else more[i] < upper)
    {
      assert i < |sleeps| ==> more[i] == sleeps[i];
    }
  }

  /** A random duration below `upper`, unless the context ends first. */
  method SleepWithJitter(upper: Int64, jitter: nat, c: Ctx) returns (ok: bool, slept: nat)
    ensures ok <==> c.Live? || (0 < upper && c.timerFirst)
    ensures ok == Awake(upper, c)
    ensures if upper <= 0 then slept == 0 else slept == jitter % upper < upper
  {
    if upper <= 0 {
      return c.Live?, 0;
    }
    slept := jitter % upper;
    ok := c.Live? || c.timerFirst;
  }

  class Dispatcher {
    const settings: Settings
    const registry: Registry
    const inst: Instruments
    const dlq: Sink?

    constructor (settings: Settings, registry: Registry, inst: Instruments, dlq: Sink?)
      ensures this.settings == settings && this.registry == registry && this.inst == inst && this.dlq == dlq
    {
      this.settings, this.registry, this.inst, this.dlq := settings, registry, inst, dlq;
    }

    /** Publishes `dl`; nil means the caller may ack. A probe's sink replaces the consumer's. */
    method DeadLetterTo(sink: Sink?, codec: Codec, dl: DeadLetter) returns (err: Option<Error>)
      modifies inst, sink
      ensures var o := DeadLettered(old(See(sink)).Mode(), codec, dl, NoCategory, CAP_ERROR, 0, 0);
              && err == o.err
              && inst.counters == Counted(old(inst.counters), o)
              && See(sink) == old(See(sink)).After(o)
      ensures err == if sink == null then Some(NO_SINK_ERROR)
                     else if !codec.encodes(dl) then Some(ENCODE_ERROR)
                     else if !old(sink.works) then Some(PUBLISH_ERROR) else None
      ensures var asked := sink != null && codec.encodes(dl);
              && inst.counters == old(inst.counters).(dlq := old(inst.counters.dlq) + One(err.None?),
                                                      dlqFailures := old(inst.counters.dlqFailures) + One(asked && err.Some?))
              && (sink != null ==> sink.attempts == old(sink.attempts) + One(asked)
                                   && sink.letters == old(sink.letters) + (if err.None? then [dl] else []))
    {
      if sink == null {
        return Some(NO_SINK_ERROR);
      }
      if !codec.encodes(dl) {
        return Some(ENCODE_ERROR);
      }
      err := sink.Publish(dl);
      inst.AddLetter(err.None?);
    }

    /** A failure that must not be retried: stated, then dead-lettered. */
    method FailWithLetter(sink: Sink?, codec: Codec, category: Category, cause: Error, dl: DeadLetter, rec: DeliveryRecorder)
      returns (err: Option<Error>)
      requires StatedIn(rec) == UNSTATED
      modifies rec`kind, rec`category, rec`err, inst, sink
      ensures var o := DeadLettered(old(See(sink)).Mode(), codec, dl, category, cause, 0, 0);
              && err == o.err
              && StatedIn(rec) == StatedBy(o)
              && inst.counters == Counted(old(inst.counters), o)
              && See(sink) == old(See(sink)).After(o)
    {
      rec.SayFailed(category, Some(cause));
      err := DeadLetterTo(sink, codec, dl);
    }

    /** Backoff i: counted as a retry before the wait, and possibly abandoned. */
    method AwaitRetry(w: World, i: nat, rec: DeliveryRecorder) returns (ok: bool, slept: nat)
      requires rec.inst == inst
      modifies inst
      ensures inst.counters == old(inst.counters).(retries := old(inst.counters.retries) + 1)
      ensures ok == Awake(Upper(settings, w, i), w.ctx(i))
      ensures var upper := Doubling(settings.retry.initialBackoff, settings.retry.maxBackoff, i);
              && (if upper <= 0 then slept == 0 else slept < upper)
              && slept == if w.noBackoff || upper <= 0 then 0 else w.jitter(i) % upper
    {
      rec.Retry();
      var upper := BackoffUpperBound(settings.retry, i);
      if w.noBackoff {
        upper := 0;
      }
      ok, slept := SleepWithJitter(upper, w.jitter(i), w.ctx(i));
    }

    /** A decisive verdict: nil and discard ack, permanent is dead-lettered, anything else nacks. `before` is what the
        instruments showed before the retry loop made its `calls` and counted its `retries`. */
    method Conclude(w: World, sink: Sink?, topic: string, payload: string, attempt: Int64, verdict: Option<Error>,
                    rec: DeliveryRecorder, ghost before: Counters, ghost calls: nat, ghost retries: nat)
      returns (err: Option<Error>)
      requires StatedIn(rec) == UNSTATED && inst.counters == before.(retries := before.retries + retries)
      modifies rec`kind, rec`category, rec`reason, rec`err, inst, sink
      ensures var o := Concluded(settings, w, old(See(sink)).Mode(), topic, payload, attempt, verdict, calls, retries);
              && err == o.err
              && StatedIn(rec) == StatedBy(o)
              && inst.counters == Counted(before, o)
              && See(sink) == old(See(sink)).After(o)
    {
      if verdict.None? {
        rec.SayProcessed();
        err := None;
      } else if IsDiscard(verdict) {
        rec.SaySkipped(Discarded);
        err := None;
      } else if IsPermanent(verdict) {
        var dl := NewLetter(settings, topic, PermanentError, verdict.value, attempt);
        var (event, raw) := Body(w.codec, payload);
        err := FailWithLetter(sink, w.codec, PermanentFailure, verdict.value, dl.(event := event, eventRaw := raw), rec);
      } else {
        rec.SayFailed(RetryableFailure, verdict);
        err := verdict;
      }
    }

    /** The calls and backoffs of the retry loop, up to the decisive call: at most 1 + MaxImmediateRetries. `sleeps`
        reports the time spent in each backoff, none when the backoff is collapsed. */
    method CallUntilDecided(w: World, fn: Handler, rec: DeliveryRecorder)
      returns (verdict: Option<Error>, calls: nat, sleeps: seq<int>)
      requires rec.inst == inst
      modifies inst
      ensures var j := LastCall(settings, w, fn, 0);
              && calls == j + 1 && verdict == w.handler(fn, j)
              && inst.counters == old(inst.counters).(retries := old(inst.counters.retries)
                                    + (if IsRetryable(verdict) && j < Retries(settings.retry) then j + 1 else j))
      ensures Jittered(settings.retry, sleeps) && (w.noBackoff ==> Total(sleeps) == 0)
      ensures 0 <= settings.retry.maxImmediateRetries ==>
                calls <= 1 + settings.retry.maxImmediateRetries && |sleeps| <= settings.retry.maxImmediateRetries
    {
      var i := 0;
      sleeps := [];
      while true
        invariant i <= Retries(settings.retry) && |sleeps| == i
        invariant LastCall(settings, w, fn, i) == LastCall(settings, w, fn, 0)
        invariant inst.counters == old(inst.counters).(retries := old(inst.counters.retries) + i)
        invariant Jittered(settings.retry, sleeps) && (w.noBackoff ==> Total(sleeps) == 0)
        decreases Retries(settings.retry) - i
      {
        verdict := w.handler(fn, i);
        calls := i + 1;
        if verdict.None? || IsDiscard(verdict) || IsPermanent(verdict) || i >= settings.retry.maxImmediateRetries {
          return;
        }
        OtherwiseRetryable(verdict);
        var ok, slept := AwaitRetry(w, i, rec);
        SleepsGrow(settings.retry, sleeps, slept);
        sleeps := sleeps + [slept];
        assert GoesOn(settings, w, fn, i) <==> ok;
        if !ok {
          return;
        }
        i := i + 1;
      }
    }

    /** The retry loop: one call per iteration, and the last verdict is the one that applies. */
    method RunWithRetry(w: World, sink: Sink?, topic: string, payload: string, attempt: Int64, fn: Handler,
                        rec: DeliveryRecorder) returns (err: Option<Error>, calls: nat, sleeps: seq<int>)
      requires rec.inst == inst && StatedIn(rec) == UNSTATED
      modifies rec`kind, rec`category, rec`reason, rec`err, inst, sink
      ensures var o := RetryOutcome(settings, w, old(See(sink)).Mode(), topic, payload, attempt, fn);
              && err == o.err && calls == o.calls
              && StatedIn(rec) == StatedBy(o)
              && inst.counters == Counted(old(inst.counters), o)
              && See(sink) == old(See(sink)).After(o)
      ensures Jittered(settings.retry, sleeps)
    {
      ghost var before, mode := inst.counters, See(sink).Mode();
      ghost var o := RetryOutcome(settings, w, mode, topic, payload, attempt, fn);
      var verdict;
      verdict, calls, sleeps := CallUntilDecided(w, fn, rec);
      assert See(sink).Mode() == mode && inst.counters == before.(retries := before.retries + o.retries);
      assert o == Concluded(settings, w, mode, topic, payload, attempt, verdict, calls, o.retries);
      err := Conclude(w, sink, topic, payload, attempt, verdict, rec, before, calls, o.retries);
    }

    /** A routable event: to its handler, or skipped when it has none. */
    method Route(w: World, sink: Sink?, topic: string, payload: string, attempt: Int64, env: Envelope, major: int,
                 rec: DeliveryRecorder) returns (err: Option<Error>, calls: nat, sleeps: seq<int>)
      requires registry.Valid() && rec.inst == inst && StatedIn(rec) == UNSTATED
      modifies rec`kind, rec`category, rec`reason, rec`err, inst, sink
      ensures var o := OutcomeAt(settings, w, old(See(sink)).Mode(), topic, payload, attempt, Routed(env, major),
                                 Found(registry.accepted, topic, env.eventType, major));
              && err == o.err && calls == o.calls
              && StatedIn(rec) == StatedBy(o)
              && inst.counters == Counted(old(inst.counters), o)
              && See(sink) == old(See(sink)).After(o)
      ensures Jittered(settings.retry, sleeps)
    {
      var m := registry.Lookup(topic, env.eventType, major);
      if m.NoMatch? {
        rec.SaySkipped(NoHandler);
        err, calls, sleeps := None, 0, [];
      } else {
        err, calls, sleeps := RunWithRetry(w, sink, topic, payload, attempt, m.fn, rec);
      }
    }

    /** The decision pipeline: cap, decoding, validation, major version, lookup, then the handler. `o` is what the
        specification makes of this delivery. */
    method Decide(w: World, sink: Sink?, topic: string, payload: string, attempt: Int64, rec: DeliveryRecorder,
                  ghost o: Outcome)
      returns (err: Option<Error>, calls: nat, sleeps: seq<int>)
      requires registry.Valid() && rec.inst == inst && StatedIn(rec) == UNSTATED
      requires var intake := IntakeOf(settings, w.codec, payload, attempt);
               o == OutcomeAt(settings, w, See(sink).Mode(), topic, payload, attempt, intake,
                              Answer(registry.accepted, topic, intake))
      modifies rec`kind, rec`category, rec`reason, rec`err, inst, sink
      ensures err == o.err && calls == o.calls && StatedIn(rec) == StatedBy(o)
      ensures inst.counters == Counted(old(inst.counters), o) && See(sink) == old(See(sink)).After(o)
      ensures Jittered(settings.retry, sleeps)
    {
      calls, sleeps := 0, [];
      if attempt > settings.cap {
        var dl := NewLetter(settings, topic, MaxAttemptsExceeded, CAP_ERROR, attempt);
        var (event, raw) := Body(w.codec, payload);
        err := FailWithLetter(sink, w.codec, MaxAttempts, CAP_ERROR, dl.(event := event, eventRaw := raw), rec);
        return;
      }
      var unusable := NewLetter(settings, topic, DeserializationFailed, DECODE_ERROR, attempt).(eventRaw := Some(payload));
      var env := w.codec.unmarshal(payload);
      if env.None? {
        err := FailWithLetter(sink, w.codec, Deserialization, DECODE_ERROR, unusable, rec);
        return;
      }
      if !ValidEnvelope(env.value) {
        err := FailWithLetter(sink, w.codec, Deserialization, DECODE_ERROR, unusable, rec);
        return;
      }
      var major := MajorVersion(env.value.schemaVersion);
      if major.None? {
        err := FailWithLetter(sink, w.codec, Deserialization, DECODE_ERROR, unusable, rec);
        return;
      }
      err, calls, sleeps := Route(w, sink, topic, payload, attempt, env.value, major.value, rec);
    }

    /** The deferred end of a delivery that has stated outcome `o`. */
    method Finish(rec: DeliveryRecorder, ghost o: Outcome)
      requires rec.inst == inst && !rec.ended && StatedIn(rec) == StatedBy(o) && !o.kind.Unset?
      modifies rec`ended, rec`category, inst, rec.probe
      ensures inst.counters == Ended(old(inst.counters), o.kind, o.category, o.reason)
      ensures rec.probe != null ==> Reading(rec.probe) == StatedBy(o)
    {
      rec.End();
    }

    /** One delivery under a recorder of its own, which comes to `o`: counted as received, decided, and ended once. */
    method Deliver(w: World, sink: Sink?, probe: Probe?, topic: string, payload: string, attempt: Int64, ghost o: Outcome)
      returns (err: Option<Error>, calls: nat, sleeps: seq<int>)
      requires registry.Valid() && !o.kind.Unset?
      requires var intake := IntakeOf(settings, w.codec, payload, attempt);
               o == OutcomeAt(settings, w, See(sink).Mode(), topic, payload, attempt, intake,
                              Answer(registry.accepted, topic, intake))
      modifies inst, sink, probe
      ensures err == o.err && calls == o.calls
      ensures inst.counters == Recorded(old(inst.counters), o) && See(sink) == old(See(sink)).After(o)
      ensures probe != null ==> Reading(probe) == StatedBy(o)
      ensures Jittered(settings.retry, sleeps)
    {
      var rec := new DeliveryRecorder(inst, probe);
      inst.AddReceived();
      assert See(sink) == old(See(sink));
      err, calls, sleeps := Decide(w, sink, topic, payload, attempt, rec, o);
      ghost var decided := inst.counters;
      Finish(rec, o);
      RecordedInSteps(old(inst.counters), decided, inst.counters, o);
    }

    /** One message from start to end. Exactly the outcome the specification gives, recorded once: one received,
        one terminal counter, one duration, at most one dead letter. A probe's sink replaces the consumer's. */
    method Dispatch(w: World, probeSink: Sink?, probe: Probe?, topic: string, payload: string, metadata: map<string, string>)
      returns (err: Option<Error>, calls: nat, sleeps: seq<int>)
      requires registry.Valid()
      modifies inst, dlq, probeSink, probe
      ensures var sink := if probeSink != null then probeSink else dlq;
              var o := Dispatched(settings, w, old(See(sink)).Mode(), registry.accepted, topic, payload, metadata);
              && err == o.err && calls == o.calls
              && inst.counters == Recorded(old(inst.counters), o)
              && See(sink) == old(See(sink)).After(o)
              && (probe != null ==> Reading(probe) == StatedBy(o))
      ensures probeSink != null && dlq != probeSink ==> See(dlq) == old(See(dlq))
      ensures Jittered(settings.retry, sleeps)
    {
      var sink := if probeSink != null then probeSink else dlq;
      ghost var o := Dispatched(settings, w, See(sink).Mode(), registry.accepted, topic, payload, metadata);
      DispatchIsStated(settings, w, See(sink).Mode(), registry.accepted, topic, payload, metadata);
      err, calls, sleeps := Deliver(w, sink, probe, topic, payload, DeliveryAttempt(metadata), o);
    }

    /** The subscriber's hook for an entry the marshaller cannot read: counted as received, then dead-lettered
        with its raw fields. Nil means the entry may be acked, and then its letter was written. */
    method HandleUndecodable(topicByStream: map<string, string>, stream: string, rawFields: Option<string>, codec: Codec)
      returns (err: Option<Error>)
      modifies inst, dlq
      ensures err.None? <==> stream in topicByStream && rawFields.Some? && old(See(dlq)).Mode().SinkAccepts?
                             && codec.encodes(RawLetter(settings, topicByStream[stream], rawFields))
      ensures var h := HookResult(settings, old(See(dlq)).Mode(), topicByStream, stream, rawFields, codec);
              && err == h.err && inst.counters == Hooked(old(inst.counters), h)
              && (dlq != null ==> dlq.attempts == old(dlq.attempts) + One(h.written.Some?))
      ensures err == if stream !in topicByStream then Some(DECODE_ERROR)
                     else if rawFields.None? then Some(ENCODE_ERROR)
                     else if dlq == null then Some(NO_SINK_ERROR)
                     else if !codec.encodes(RawLetter(settings, topicByStream[stream], rawFields)) then Some(ENCODE_ERROR)
                     else if !old(dlq.works) then Some(PUBLISH_ERROR) else None
      ensures var c, asked := old(inst.counters), err.None? || err == Some(PUBLISH_ERROR);
              inst.counters == c.(received := c.received + One(stream in topicByStream),
                                  dlq := c.dlq + One(err.None?), dlqFailures := c.dlqFailures + One(asked && err.Some?))
      ensures dlq != null ==>
                dlq.letters == (if err.Some? then old(dlq.letters)
                                else old(dlq.letters) + [DeadLetter(DeserializationFailed, DECODE_ERROR, 1, settings.group,
                                                                    settings.consumer, topicByStream[stream], None, rawFields)])
    {
      if stream !in topicByStream {
        return Some(DECODE_ERROR);
      }
      inst.AddReceived();
      if rawFields.None? {
        return Some(ENCODE_ERROR);
      }
      err := DeadLetterTo(dlq, codec, RawLetter(settings, topicByStream[stream], rawFields));
    }
  }
}
