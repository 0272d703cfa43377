/** The layers joined: whatever dispatch does with a message is something the protocol lets a dispatch call do
    and something the metrics account for, and a delivery takes no longer than its handler calls, its backoffs
    and its DLQ write. */
module Bridge {
  import opened Basics
  import opened Strconv
  import opened Errors
  import opened Backoff
  import opened Telemetry
  import opened RegistryModel
  import opened DispatchSpec
  import opened ConsumerModel
  import Stream = RedisStream
  import Sub = Subscriber
  import Progress = ConsumeProgress

  /** The protocol's settings are the consumer's. */
  predicate Matches(cfg: Stream.Config, s: Settings) {
    cfg.cap == s.cap && cfg.retries == Retries(s.retry)
  }

  /** A dispatch call that has called its handler `n` times. */
  function Calling(n: nat): seq<Sub.MsgAct> {
    if n == 0 then [Sub.BeginDispatch] else Calling(n - 1) + [Sub.CallHandler]
  }

  /** The protocol steps of a delivery that came to `o`: a letter that could not even be offered counts as
      refused, `written` says whether it reached the DLQ, and the router acks exactly when dispatch returned nil. */
  function Script(o: Outcome, written: bool): seq<Sub.MsgAct> {
    (if o.letter.Some? then Calling(o.calls) + [Sub.PublishLetter(o.accepted, written)] else Calling(o.calls))
    + [Sub.Return(o.err.None?)]
  }

  /** The delivery after some steps of its dispatch call. */
  function After(cfg: Stream.Config, d: Sub.Delivery, acts: seq<Sub.MsgAct>): Sub.Delivery {
    if acts == [] then d else Sub.MsgDelivery(cfg, After(cfg, d, acts[..|acts| - 1]), acts[|acts| - 1])
  }

  /** Every step is enabled where it is taken. Enabledness looks at this delivery only, so no interleaving with
      other goroutines takes it away. */
  ghost predicate Plays(cfg: Stream.Config, env: Sub.Env, d: Sub.Delivery, acts: seq<Sub.MsgAct>) {
    acts == [] ||
    (Plays(cfg, env, d, acts[..|acts| - 1])
     && Sub.DispatchEnabled(cfg, env, After(cfg, d, acts[..|acts| - 1]), acts[|acts| - 1]))
  }

  lemma PlaysOneMore(cfg: Stream.Config, env: Sub.Env, d: Sub.Delivery, acts: seq<Sub.MsgAct>, a: Sub.MsgAct)
    requires Plays(cfg, env, d, acts) && Sub.DispatchEnabled(cfg, env, After(cfg, d, acts), a)
    ensures Plays(cfg, env, d, acts + [a])
    ensures After(cfg, d, acts + [a]) == Sub.MsgDelivery(cfg, After(cfg, d, acts), a)
  {
    assert (acts + [a])[..|acts|] == acts;
  }

  /** The n-th handler call of a dispatch that has made n - 1. */
  lemma CallPlays(cfg: Stream.Config, env: Sub.Env, d: Sub.Delivery, n: nat)
    requires 1 <= n <= Stream.Budget(cfg, d.attempt)
    ensures var before := d.(run := Sub.Running(n - 1, Sub.NoLetter), begun := true);
            && Sub.DispatchEnabled(cfg, env, before, Sub.CallHandler)
            && Sub.MsgDelivery(cfg, before, Sub.CallHandler) == d.(run := Sub.Running(n, Sub.NoLetter), begun := true)
  {
  }

  lemma {:induction false} CallsPlay(cfg: Stream.Config, env: Sub.Env, d: Sub.Delivery, n: nat)
    requires d.run.Idle? && n <= Stream.Budget(cfg, d.attempt)
    ensures Plays(cfg, env, d, Calling(n))
    ensures After(cfg, d, Calling(n)) == d.(run := Sub.Running(n, Sub.NoLetter), begun := true)
  {
    if n == 0 {
      PlaysOneMore(cfg, env, d, [], Sub.BeginDispatch);
      assert [] + [Sub.BeginDispatch] == Calling(0);
    } else {
      CallsPlay(cfg, env, d, n - 1);
      CallPlays(cfg, env, d, n);
      PlaysOneMore(cfg, env, d, Calling(n - 1), Sub.CallHandler);
    }
  }

  lemma OutcomePlays(cfg: Stream.Config, env: Sub.Env, s: Settings, sink: SinkState, d: Sub.Delivery, o: Outcome,
                     written: bool)
    requires Matches(cfg, s) && d.run.Idle? && 1 <= d.attempt <= MAX_INT64
    requires Sound(s, sink, d.attempt, o) && (o.accepted ==> written)
    ensures Plays(cfg, env, d, Script(o, written))
    ensures After(cfg, d, Script(o, written)).run == Sub.Returned(o.err.None?)
  {
    CallsPlay(cfg, env, d, o.calls);
    var acts := Calling(o.calls);
    if o.letter.Some? {
      PlaysOneMore(cfg, env, d, acts, Sub.PublishLetter(o.accepted, written));
      acts := acts + [Sub.PublishLetter(o.accepted, written)];
    }
    PlaysOneMore(cfg, env, d, acts, Sub.Return(o.err.None?));
  }

  /** For every payload, registry, handler behaviour and environment: dispatching a message whose metadata carries
      the attempt the subscriber stamped is a legal run of the protocol's dispatch steps, ending in an ack exactly
      when dispatch returns nil. `lost` says that a letter which was not accepted was written all the same. */
  lemma DispatchIsProtocol(cfg: Stream.Config, env: Sub.Env, s: Settings, w: World, sink: SinkState,
                           log: seq<Registration>, topic: string, payload: string, metadata: map<string, string>,
                           d: Sub.Delivery, lost: bool)
    requires Matches(cfg, s) && Exclusive(log) && d.run.Idle? && 1 <= d.attempt <= MAX_INT64
    ensures var o := Dispatched(s, w, sink, log, topic, payload, metadata[ATTEMPT_KEY := FormatInt(d.attempt)]);
            && Plays(cfg, env, d, Script(o, o.accepted || lost))
            && After(cfg, d, Script(o, o.accepted || lost)).run == Sub.Returned(o.err.None?)
  {
    var stamped := metadata[ATTEMPT_KEY := FormatInt(d.attempt)];
    StampedAttemptSurvives(metadata, d.attempt);
    AckJustified(s, w, sink, log, topic, payload, stamped);
    var o := Dispatched(s, w, sink, log, topic, payload, stamped);
    OutcomePlays(cfg, env, s, sink, d, o, o.accepted || lost);
  }

  /** The other direction: every return the protocol allows a dispatch call is one that a sound outcome makes, with the
      same calls, letter and verdict. */
  lemma ReturnsAreOutcomes(cfg: Stream.Config, env: Sub.Env, s: Settings, sink: SinkState, d: Sub.Delivery, dl: DeadLetter,
                           e: Error, acked: bool) returns (o: Outcome)
    requires Matches(cfg, s) && 1 <= d.attempt <= MAX_INT64 && d.run.Running?
    requires d.run.calls <= Stream.Budget(cfg, d.attempt) && (d.run.letter.Accepted? ==> sink.SinkAccepts?)
    requires Sub.DispatchEnabled(cfg, env, d, Sub.Return(acked))
    ensures Sound(s, sink, d.attempt, o) && o.calls == d.run.calls && (o.err.None? <==> acked)
    ensures (o.letter.Some? <==> !d.run.letter.NoLetter?) && (o.accepted <==> d.run.letter.Accepted?)
  {
    var calls := d.run.calls;
    match d.run.letter
    case NoLetter =>
      o := if !acked then Outcome(Some(e), Failed, RetryableFailure, NoReason, Some(e), calls, 0, None, false, false)
           else if calls == 0 then Outcome(None, Skipped, NoCategory, NoHandler, None, 0, 0, None, false, false)
           else Outcome(None, Processed, NoCategory, NoReason, None, calls, 0, None, false, false);
    case _ =>
      var category := if d.attempt > s.cap then MaxAttempts else PermanentFailure;
      o := Outcome(if acked then None else Some(e), Failed, category, NoReason, Some(e), calls, 0, Some(dl), acked, acked);
  }

  // ----- entries no message could be made of -----

  /** The emission steps of an entry whose hook came to `h`: acknowledged exactly when the hook returned nil. `written`
      says whether its letter reached the DLQ, `reached` whether the XACK took effect. */
  function HookScript(who: Sub.Loop, h: HookOutcome, written: bool, reached: bool): seq<Sub.SubAct> {
    [Sub.OfEmit(who, Sub.Hook(h.err.None?, written))]
    + (if h.err.None? then [Sub.OfEmit(who, Sub.HookXack(reached))] else [])
    + [Sub.OfEmit(who, Sub.Drop)]
  }

  /** The stream after the hook's letter and the XACK. */
  function HookLog(log: Stream.Log, id: nat, h: HookOutcome, written: bool, reached: bool): Stream.Log {
    var log' := if written then Stream.WriteLetter(log, id) else log;
    if h.err.None? && reached then Stream.Ack(log', id) else log'
  }

  /** The loop's view while it acts on delivery `n`: the stream, the stage of `n` and whether an XACK was tried. */
  function EmittingAt(v: Sub.View, n: nat, log: Stream.Log, stage: Sub.Stage, tried: bool): Sub.View
    requires n < |v.sub.deliveries| && n < |v.sub.stages|
  {
    v.(log := log, sub := v.sub.(stages := v.sub.stages[n := stage],
                                 deliveries := v.sub.deliveries[n := v.sub.deliveries[n].(tried := tried)]))
  }

  lemma HookStep(cfg: Stream.Config, env: Sub.Env, k: nat, v: Sub.View, who: Sub.Loop, accepted: bool, written: bool)
    requires Sub.EmitEnabled(env, v, who, Sub.Hook(accepted, written))
    ensures var n := Sub.Current(v.sub, who).value; var d := v.sub.deliveries[n];
            Sub.Step(cfg, env, k, v, Sub.OfEmit(who, Sub.Hook(accepted, written)))
            == EmittingAt(v, n, if written then Stream.WriteLetter(v.log, d.id) else v.log,
                          if accepted then Sub.HookAcking else Sub.Dropping, d.tried)
  {
    var n := Sub.Current(v.sub, who).value;
    assert v.sub.deliveries[n].(tried := v.sub.deliveries[n].tried) == v.sub.deliveries[n];
  }

  lemma XackStep(cfg: Stream.Config, env: Sub.Env, k: nat, v: Sub.View, who: Sub.Loop, log: Stream.Log, reached: bool)
    requires Sub.Emitting(v.sub, who)
    ensures var n, xack := Sub.Current(v.sub, who).value, Sub.OfEmit(who, Sub.HookXack(reached));
            var d := v.sub.deliveries[n];
            var held := EmittingAt(v, n, log, Sub.HookAcking, d.tried);
            && Sub.Enabled(cfg, env, held, xack)
            && Sub.Step(cfg, env, k, held, xack)
               == EmittingAt(v, n, if reached then Stream.Ack(log, d.id) else log, Sub.Dropping, true)
  {
    var n := Sub.Current(v.sub, who).value;
    var held := EmittingAt(v, n, log, Sub.HookAcking, v.sub.deliveries[n].tried);
    assert held.sub.stages[n := Sub.Dropping] == v.sub.stages[n := Sub.Dropping];
    var acked := v.sub.deliveries[n].(tried := true);
    assert held.sub.deliveries[n].(tried := true) == acked;
    assert held.sub.deliveries[n := acked] == v.sub.deliveries[n := acked];
    var xack := Sub.HookXack(reached);
    assert Sub.EmitStep(env, held, who, xack) == Sub.Step(cfg, env, k, held, Sub.OfEmit(who, xack));
  }

  lemma DropStep(cfg: Stream.Config, env: Sub.Env, k: nat, v: Sub.View, who: Sub.Loop, log: Stream.Log, tried: bool)
    requires Sub.Emitting(v.sub, who)
    ensures var n, drop := Sub.Current(v.sub, who).value, Sub.OfEmit(who, Sub.Drop);
            var held := EmittingAt(v, n, log, Sub.Dropping, tried);
            && Sub.Enabled(cfg, env, held, drop)
            && LetGo(env, v, who, n, log, tried, Sub.Step(cfg, env, k, held, drop))
  {
  }

  /** The message is dropped and its slot returned, and the loop goes on unless the subscriber is stopping: the read loop
      at its top, the claim loop with the rest of its sweep. */
  predicate LetGo(env: Sub.Env, v: Sub.View, who: Sub.Loop, n: nat, log: Stream.Log, tried: bool, end: Sub.View)
    requires n < |v.sub.deliveries| && n < |v.sub.stages| && (who.ClaimLoop? ==> v.sub.claimer.CEmit?)
  {
    && end.sub.reader == (if who.ClaimLoop? then v.sub.reader else if env.Stopping() then Sub.RDone else Sub.RAcquire)
    && end.sub.claimer == (if who.ReadLoop? then v.sub.claimer
                           else if env.Stopping() then Sub.CDone else Sub.CSweep(v.sub.claimer.todo))
    && end.log == log && end.sub.stages == v.sub.stages[n := Sub.Dropped] && end.sub.sem == Sub.Less(v.sub.sem)
    && end.sub.deliveries == v.sub.deliveries[n := v.sub.deliveries[n].(tried := tried)]
  }

  lemma HookPlays(cfg: Stream.Config, env: Sub.Env, k: nat, v: Sub.View, who: Sub.Loop, h: HookOutcome, written: bool,
                  reached: bool)
    requires Sub.EmitEnabled(env, v, who, Sub.Hook(h.err.None?, written))
    ensures var n := Sub.Current(v.sub, who).value; var d := v.sub.deliveries[n];
            var end := Progress.Play(cfg, env, k, v, HookScript(who, h, written, reached));
            end.Some? && LetGo(env, v, who, n, HookLog(v.log, d.id, h, written, reached), h.err.None? || d.tried, end.value)
  {
    var d := v.sub.deliveries[Sub.Current(v.sub, who).value];
    var log := if written then Stream.WriteLetter(v.log, d.id) else v.log;
    var hook, drop := Sub.OfEmit(who, Sub.Hook(h.err.None?, written)), Sub.OfEmit(who, Sub.Drop);
    var v1 := Sub.Step(cfg, env, k, v, hook);
    HookStep(cfg, env, k, v, who, h.err.None?, written);
    if h.err.None? {
      var xack := Sub.OfEmit(who, Sub.HookXack(reached));
      XackStep(cfg, env, k, v, who, log, reached);
      DropStep(cfg, env, k, v, who, HookLog(v.log, d.id, h, written, reached), true);
      PlaysThree(cfg, env, k, v, hook, xack, drop);
      assert HookScript(who, h, written, reached) == [hook, xack, drop];
    } else {
      DropStep(cfg, env, k, v, who, log, d.tried);
      PlaysTwo(cfg, env, k, v, hook, drop);
      assert HookScript(who, h, written, reached) == [hook, drop];
    }
  }

  lemma PlaysTwo(cfg: Stream.Config, env: Sub.Env, k: nat, v: Sub.View, a: Sub.SubAct, b: Sub.SubAct)
    requires Sub.Enabled(cfg, env, v, a) && Sub.Enabled(cfg, env, Sub.Step(cfg, env, k, v, a), b)
    ensures Progress.Play(cfg, env, k, v, [a, b]) == Some(Sub.Step(cfg, env, k, Sub.Step(cfg, env, k, v, a), b))
  {
    Progress.PlayOne(cfg, env, k, v, a, [b]);
    Progress.PlayOne(cfg, env, k, Sub.Step(cfg, env, k, v, a), b, []);
    assert [a] + [b] == [a, b] && [b] + [] == [b];
  }

  lemma PlaysThree(cfg: Stream.Config, env: Sub.Env, k: nat, v: Sub.View, a: Sub.SubAct, b: Sub.SubAct, c: Sub.SubAct)
    requires Sub.Enabled(cfg, env, v, a)
    requires var v1 := Sub.Step(cfg, env, k, v, a);
             Sub.Enabled(cfg, env, v1, b) && Sub.Enabled(cfg, env, Sub.Step(cfg, env, k, v1, b), c)
    ensures Progress.Play(cfg, env, k, v, [a, b, c])
         == Some(Sub.Step(cfg, env, k, Sub.Step(cfg, env, k, Sub.Step(cfg, env, k, v, a), b), c))
  {
    Progress.PlayOne(cfg, env, k, v, a, [b, c]);
    PlaysTwo(cfg, env, k, Sub.Step(cfg, env, k, v, a), b, c);
    assert [a] + [b, c] == [a, b, c];
  }

  /** For every table, stream, raw fields and sink: what HandleUndecodable comes to is a legal run of the loop that holds
      the entry. It ends with the message dropped and the slot returned; the XACK is sent exactly when the hook returned
      nil, and then the letter is in the DLQ. `lost` says that a letter which was offered and not accepted was written
      all the same. */
  lemma HookIsProtocol(cfg: Stream.Config, env: Sub.Env, k: nat, v: Sub.View, who: Sub.Loop, s: Settings,
                       sink: SinkState, table: map<string, string>, stream: string, raw: Option<string>, codec: Codec,
                       lost: bool, reached: bool)
    requires Sub.Emitting(v.sub, who)
    requires var n := Sub.Current(v.sub, who).value;
             v.sub.stages[n].Decoding? && v.sub.deliveries[n].id in v.log.undecodable
    ensures var h, n := HookResult(s, sink, table, stream, raw, codec), Sub.Current(v.sub, who).value;
            var d, written := v.sub.deliveries[n], h.written == Some(true) || (h.written.Some? && lost);
            var end := Progress.Play(cfg, env, k, v, HookScript(who, h, written, reached));
            && end.Some?
            && LetGo(env, v, who, n, HookLog(v.log, d.id, h, written, reached), h.err.None? || d.tried, end.value)
            && (h.err.None? ==> d.id in HookLog(v.log, d.id, h, written, reached).dlq)
  {
    var h := HookResult(s, sink, table, stream, raw, codec);
    HookPlays(cfg, env, k, v, who, h, h.written == Some(true) || (h.written.Some? && lost), reached);
  }

  // ----- what the metrics see of it -----

  function Retried(b: Board, n: nat, times: nat): (after: Board)
    requires n < |b.deliveries|
    ensures after == b.(counters := b.counters.(retries := b.counters.retries + times))
  {
    if times == 0 then b else Happen(Retried(b, n, times - 1), RetryOnce(n))
  }

  /** A delivery that comes to `o`, up to its deferred end. */
  function Undertaken(b: Board, o: Outcome): (after: Board)
    ensures |after.deliveries| == |b.deliveries| + 1
  {
    var n := |b.deliveries|;
    var b2 := Happen(Retried(Happen(b, Receive), n, o.retries), StateOutcome(n, o.kind, o.category, o.reason));
    if o.offered then Happen(b2, LetterWritten(n, o.accepted)) else b2
  }

  /** The events of one delivery that comes to `o`, in dispatch's order. */
  function Accounted(b: Board, o: Outcome): Board {
    Happen(Undertaken(b, o), Telemetry.End(|b.deliveries|))
  }

  lemma UndertakenShows(b: Board, o: Outcome)
    ensures Undertaken(b, o)
         == Board(Counted(b.counters.(received := b.counters.received + 1), o),
                  b.deliveries + [Telemetry.Open(o.kind, o.category, o.reason, false, o.offered)], b.undecodable)
  {
  }

  lemma UndertakenConserves(b: Board, o: Outcome)
    requires Conserved(b)
    ensures Conserved(Undertaken(b, o))
  {
    var n := |b.deliveries|;
    var b1 := Retried(Happen(b, Receive), n, o.retries);
    HappenConserves(b, Receive);
    HappenConserves(b1, StateOutcome(n, o.kind, o.category, o.reason));
    if o.offered {
      HappenConserves(Happen(b1, StateOutcome(n, o.kind, o.category, o.reason)), LetterWritten(n, o.accepted));
    }
  }

  lemma EndShows(c: Counters, before: seq<Open>, d: Open, undecodable: nat)
    requires !d.ended
    ensures Happen(Board(c, before + [d], undecodable), Telemetry.End(|before|))
         == Board(Ended(c, d.kind, d.category, d.reason), before + [d.(ended := true)], undecodable)
  {
    assert (before + [d])[|before| := d.(ended := true)] == before + [d.(ended := true)];
  }

  /** What Dispatch leaves in the instruments is what those events add up to; the delivery is closed and no other
      delivery's account is touched. */
  lemma DispatchIsAccounted(b: Board, o: Outcome)
    ensures Accounted(b, o)
         == Board(Recorded(b.counters, o),
                  b.deliveries + [Telemetry.Open(o.kind, o.category, o.reason, true, o.offered)], b.undecodable)
  {
    UndertakenShows(b, o);
    var d := Telemetry.Open(o.kind, o.category, o.reason, false, o.offered);
    EndShows(Counted(b.counters.(received := b.counters.received + 1), o), b.deliveries, d, b.undecodable);
  }

  /** A dispatch keeps the accounts balanced. */
  lemma DispatchConserves(b: Board, o: Outcome)
    requires Conserved(b)
    ensures Conserved(Accounted(b, o))
  {
    UndertakenConserves(b, o);
    EndConserves(Undertaken(b, o), |b.deliveries|);
  }

  /** The accounts after the hook: the event of an undecodable entry when its stream has a topic, otherwise none. */
  function HookAccounted(b: Board, h: HookOutcome): Board {
    if h.received then Happen(b, UndecodableEntry(h.written)) else b
  }

  /** What HandleUndecodable leaves in the instruments is what that event adds, and the accounts stay balanced. */
  lemma HookIsAccounted(b: Board, s: Settings, sink: SinkState, table: map<string, string>, stream: string,
                        raw: Option<string>, codec: Codec)
    requires Conserved(b)
    ensures var h := HookResult(s, sink, table, stream, raw, codec);
            && HookAccounted(b, h).counters == Hooked(b.counters, h)
            && HookAccounted(b, h).deliveries == b.deliveries && Conserved(HookAccounted(b, h))
  {
    var h := HookResult(s, sink, table, stream, raw, codec);
    if h.received {
      HappenConserves(b, UndecodableEntry(h.written));
    }
  }

  // ----- how long a delivery takes -----

  lemma {:induction false} TotalBounded(times: seq<int>, most: nat)
    requires forall i :: 0 <= i < |times| ==> times[i] <= most
    ensures Total(times) <= |times| * most
  {
    if times != [] {
      TotalBounded(times[..|times| - 1], most);
      assert |times| * most == (|times| - 1) * most + most;
    }
  }

  lemma ProductGrows(m: nat, n: nat, k: nat)
    requires m <= n
    ensures m * k <= n * k
  {
  }

  /** Handler calls of at most `h` each, jittered backoffs and a DLQ write of at most `dlq`: the delivery takes at
      most (1 + MaxImmediateRetries) * h + worst-case backoff + dlq. When that and the rest of the delivery
      (reading, waiting, XACK) stay below ClaimMinIdle, the delivery is over before it can be reclaimed. */
  lemma OccupancyBound(s: Settings, sink: SinkState, attempt: Int64, o: Outcome, handler: seq<int>, sleeps: seq<int>,
                       write: nat, h: nat, dlq: nat)
    requires Sound(s, sink, attempt, o) && |handler| == o.calls && (forall i :: 0 <= i < |handler| ==> handler[i] <= h)
    requires 0 <= s.retry.initialBackoff && 0 <= s.retry.maxBackoff && Jittered(s.retry, sleeps)
    requires BoundSum(s.retry.initialBackoff, s.retry.maxBackoff, Retries(s.retry)) <= MAX_INT64
    requires write <= (if o.offered then dlq else 0)
    ensures Total(handler) + Total(sleeps) + write
            <= (1 + Retries(s.retry)) * h + BoundSum(s.retry.initialBackoff, s.retry.maxBackoff, Retries(s.retry)) + dlq
  {
    TotalBounded(handler, h);
    ProductGrows(o.calls, 1 + Retries(s.retry), h);
    SleepsWithinSum(s.retry, sleeps);
    SumGrows(s.retry.initialBackoff, s.retry.maxBackoff, |sleeps|, Retries(s.retry));
  }
}
