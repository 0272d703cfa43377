/** The rounds themselves: what a loop leaves behind when a command brings nothing, and how a message that was handled or
    dead-lettered is acknowledged. */
module ConsumeRounds {
  import opened Basics
  import opened RedisStream
  import opened Subscriber
  import opened ConsumeProgress

  lemma PlayTwo(cfg: Config, env: Env, k: nat, v: View, a: SubAct, b: SubAct)
    requires Enabled(cfg, env, v, a) && Enabled(cfg, env, Step(cfg, env, k, v, a), b)
    ensures Play(cfg, env, k, v, [a] + [b]) == Some(Step(cfg, env, k, Step(cfg, env, k, v, a), b))
  {
    PlayOne(cfg, env, k, v, a, [b]);
    PlayOne(cfg, env, k, Step(cfg, env, k, v, a), b, []);
    assert [b] + [] == [b];
  }

  // ----- rounds that bring nothing -----

  /** An empty read gives its slot back, and the loop reads again. */
  lemma EmptyReadGoesOn(cfg: Config, env: Env, k: nat, v: View)
    requires v.sub.reader.RRead? && NothingNew(v.log) && !env.Stopping() && 1 <= v.sub.sem
    ensures Play(cfg, env, k, v, [OfReader(ReadNothing(Nothing))] + [OfReader(ReadRelease)])
         == Some(v.(sub := v.sub.(reader := RAcquire, sem := v.sub.sem - 1)))
  {
    PlayTwo(cfg, env, k, v, OfReader(ReadNothing(Nothing)), OfReader(ReadRelease));
  }

  /** A failed read does the same after a pause. */
  lemma FailedReadGoesOn(cfg: Config, env: Env, k: nat, v: View)
    requires v.sub.reader.RRead? && !env.Stopping() && 1 <= v.sub.sem
    ensures Play(cfg, env, k, v, [OfReader(ReadNothing(Other))] + ([OfReader(ReadRelease)] + [OfReader(ReadResume)]))
         == Some(v.(sub := v.sub.(reader := RAcquire, sem := v.sub.sem - 1)))
  {
    PlayOne(cfg, env, k, v, OfReader(ReadNothing(Other)), [OfReader(ReadRelease)] + [OfReader(ReadResume)]);
    PlayTwo(cfg, env, k, Step(cfg, env, k, v, OfReader(ReadNothing(Other))), OfReader(ReadRelease), OfReader(ReadResume));
  }

  /** After restoring the group, or failing to, the read loop reads again. */
  lemma RepairGoesOn(cfg: Config, env: Env, k: nat, v: View, ok: bool)
    requires v.sub.reader.RRecreate? && v.log.group.None?
    ensures Play(cfg, env, k, v, [OfReader(ReadRecreate(ok))] + [OfReader(ReadResume)])
         == Some(v.(log := if ok then v.log.(group := Some(Group(0, map[])), creations := v.log.creations + 1) else v.log,
                    sub := v.sub.(reader := RAcquire)))
  {
    PlayTwo(cfg, env, k, v, OfReader(ReadRecreate(ok)), OfReader(ReadResume));
  }

  /** An entry whose reply was lost stays pending, and the loop reads again. */
  lemma LostReadGoesOn(cfg: Config, env: Env, k: nat, v: View, id: nat)
    requires v.sub.reader.RRead? && IsNext(v.log, id) && !env.Stopping() && 1 <= v.sub.sem
    ensures var path := [OfReader(ReadReplyLost(id))] + ([OfReader(ReadRelease)] + [OfReader(ReadResume)]);
            var end := Play(cfg, env, k, v, path);
            && end.Some? && end.value.sub == v.sub.(reader := RAcquire, sem := v.sub.sem - 1)
            && end.value.log.group.Some? && end.value.log.group.value.last == id
            && end.value.log.group.value.pel == v.log.group.value.pel[id := Pending(1, env.now, |v.log.grants|)]
  {
    PlayOne(cfg, env, k, v, OfReader(ReadReplyLost(id)), [OfReader(ReadRelease)] + [OfReader(ReadResume)]);
    PlayTwo(cfg, env, k, Step(cfg, env, k, v, OfReader(ReadReplyLost(id))), OfReader(ReadRelease), OfReader(ReadResume));
  }

  /** A claim that gets nothing, or fails, gives its slot back, and the sweep goes on with exactly the remaining lines. */
  lemma FruitlessClaimGoesOn(cfg: Config, env: Env, k: nat, v: View, f: Failure)
    requires ClaimEnabled(cfg, env, v, ClaimNothing(f)) && !f.NoGroup? && !env.Stopping() && 1 <= v.sub.sem
    ensures Play(cfg, env, k, v, [OfClaimer(ClaimNothing(f))] + [OfClaimer(ClaimRelease)])
         == Some(v.(sub := v.sub.(claimer := CSweep(v.sub.claimer.todo[1..]), sem := v.sub.sem - 1)))
  {
    PlayTwo(cfg, env, k, v, OfClaimer(ClaimNothing(f)), OfClaimer(ClaimRelease));
  }

  /** A claim whose reply was lost has counted a delivery on the server all the same; the sweep goes on without its line. */
  lemma LostClaimGoesOn(cfg: Config, env: Env, k: nat, v: View)
    requires ClaimEnabled(cfg, env, v, ClaimReplyLost) && !env.Stopping() && 1 <= v.sub.sem
    ensures var end := Play(cfg, env, k, v, [OfClaimer(ClaimReplyLost)] + [OfClaimer(ClaimRelease)]);
            var pel, id := v.log.group.value.pel, v.sub.claimer.todo[0].id;
            && end.Some? && end.value.sub == v.sub.(claimer := CSweep(v.sub.claimer.todo[1..]), sem := v.sub.sem - 1)
            && end.value.log.group
               == Some(v.log.group.value.(pel := pel[id := Pending(pel[id].count + 1, env.now, |v.log.grants|)]))
  {
    PlayTwo(cfg, env, k, v, OfClaimer(ClaimReplyLost), OfClaimer(ClaimRelease));
  }

  /** A scan that fails, and a sweep that is through, lead to the next tick. */
  lemma SweepsGoOn(cfg: Config, env: Env, k: nat, v: View)
    requires !env.Stopping()
    ensures v.sub.claimer.CScan? ==>
              Play(cfg, env, k, v, [OfClaimer(ClaimScanFailed(Other))] + [OfClaimer(ClaimResume)])
              == Some(v.(sub := v.sub.(claimer := CTick)))
    ensures v.sub.claimer == CSweep([]) ==>
              Play(cfg, env, k, v, [OfClaimer(ClaimResume)] + [OfClaimer(ClaimTick)]) == Some(v.(sub := v.sub.(claimer := CScan)))
  {
    if v.sub.claimer.CScan? {
      PlayTwo(cfg, env, k, v, OfClaimer(ClaimScanFailed(Other)), OfClaimer(ClaimResume));
    }
    if v.sub.claimer == CSweep([]) {
      PlayTwo(cfg, env, k, v, OfClaimer(ClaimResume), OfClaimer(ClaimTick));
    }
  }

  /** When the subscriber is stopping the same rounds end the loops, with their slots given back. */
  lemma RoundsStop(cfg: Config, env: Env, k: nat, v: View, f: Failure)
    requires env.Stopping()
    ensures ReadEnabled(cfg, env, v, ReadNothing(f)) && 1 <= v.sub.sem ==>
              Play(cfg, env, k, v, [OfReader(ReadNothing(f))] + [OfReader(ReadRelease)])
              == Some(v.(sub := v.sub.(reader := RDone, sem := v.sub.sem - 1)))
    ensures ClaimEnabled(cfg, env, v, ClaimNothing(f)) && 1 <= v.sub.sem ==>
              Play(cfg, env, k, v, [OfClaimer(ClaimNothing(f))] + [OfClaimer(ClaimRelease)])
              == Some(v.(sub := v.sub.(claimer := CDone, sem := v.sub.sem - 1)))
    ensures v.sub.reader.RAcquire? ==>
              && Enabled(cfg, env, v, OfReader(ReadHalt))
              && Step(cfg, env, k, v, OfReader(ReadHalt)) == v.(sub := v.sub.(reader := RDone))
    ensures v.sub.claimer.CTick? || (v.sub.claimer.CSweep? && v.sub.claimer.todo != []) ==>
              && Enabled(cfg, env, v, OfClaimer(ClaimHalt))
              && Step(cfg, env, k, v, OfClaimer(ClaimHalt)) == v.(sub := v.sub.(claimer := CDone))
  {
    if ReadEnabled(cfg, env, v, ReadNothing(f)) && 1 <= v.sub.sem {
      PlayTwo(cfg, env, k, v, OfReader(ReadNothing(f)), OfReader(ReadRelease));
    }
    if ClaimEnabled(cfg, env, v, ClaimNothing(f)) && 1 <= v.sub.sem {
      PlayTwo(cfg, env, k, v, OfClaimer(ClaimNothing(f)), OfClaimer(ClaimRelease));
    }
  }

  // ----- messages that are done -----

  /** The waiter of message `n` is gone: its slot and its WaitGroup count are given back. */
  function Done(v: View, log: Log, n: nat, d: Delivery): View
    requires n < |v.sub.deliveries| == |v.sub.stages|
  {
    View(log, v.sub.(deliveries := v.sub.deliveries[n := d], stages := v.sub.stages[n := Gone], sem := Less(v.sub.sem)),
         Less(v.wg))
  }

  function Acknowledge(log: Log, id: nat): Log {
    if log.group.None? then log
    else log.(group := Some(Group(log.group.value.last, log.group.value.pel - {id})))
  }

  /** However the waiter of an acked message wakes up, by the ack or because Close races it, it tries the XACK and then
      goes. */
  lemma AckIsHonoured(cfg: Config, env: Env, k: nat, v: View, n: nat, d: Delivery, see: MsgAct, reached: bool)
    requires n < |v.sub.deliveries| == |v.sub.stages| && d.grant < |v.log.grants| == |v.log.calls|
    requires d.run == Returned(true) && (see == SeeAck || (see == SeeClosing && env.closing))
    ensures Play(cfg, env, k, MessageAt(v, n, d, Waiting),
                 [OfMessage(n, see)] + ([OfMessage(n, Xack(reached))] + ([OfMessage(n, Unwind)] + [OfMessage(n, Leave)])))
         == Some(Done(v, if reached then Acknowledge(v.log, d.id) else v.log, n, d.(tried := true, ctxDone := true)))
  {
    var tail := [OfMessage(n, Unwind)] + [OfMessage(n, Leave)];
    var v1 := v.(log := if reached then Acknowledge(v.log, d.id) else v.log);
    MessageStep(cfg, env, k, v, n, d, Waiting, see);
    MessageStep(cfg, env, k, v, n, d, Acking, Xack(reached));
    PlayOne(cfg, env, k, MessageAt(v, n, d, Waiting), OfMessage(n, see), [OfMessage(n, Xack(reached))] + tail);
    PlayOne(cfg, env, k, MessageAt(v, n, d, Acking), OfMessage(n, Xack(reached)), tail);
    WaiterEnds(cfg, env, k, v1, n, d.(tried := true));
  }

  /** A dispatch offers at most one letter, and then returns: nil exactly when the letter was accepted. Over the cap it can
      return nil in no other way, and it calls no handler. */
  lemma LetterDecides(cfg: Config, env: Env, d: Delivery, m: MsgAct)
    requires d.run.Running? && DispatchEnabled(cfg, env, d, m)
    ensures !d.run.letter.NoLetter? ==> m == Return(d.run.letter.Accepted?)
    ensures m.PublishLetter? ==> MsgDelivery(cfg, d, m).run == Running(d.run.calls, if m.accepted then Accepted else Refused)
    ensures cfg.cap < d.attempt ==> !m.CallHandler? && (m == Return(true) ==> d.run.letter.Accepted?)
  {
  }

  function AckTail(n: nat, reached: bool): seq<SubAct> {
    [OfMessage(n, Return(true))]
    + ([OfMessage(n, SeeAck)] + ([OfMessage(n, Xack(reached))] + ([OfMessage(n, Unwind)] + [OfMessage(n, Leave)])))
  }

  function AckPath(n: nat, first: MsgAct, reached: bool): seq<SubAct> {
    [OfMessage(n, BeginDispatch)] + ([OfMessage(n, first)] + AckTail(n, reached))
  }

  /** A dispatch that may return nil ends with the entry acknowledged; without a letter the entry counts as handled. */
  lemma ReturnsAcked(cfg: Config, env: Env, k: nat, v: View, n: nat, d: Delivery, reached: bool)
    requires n < |v.sub.deliveries| == |v.sub.stages| && d.grant < |v.log.grants| == |v.log.calls|
    requires DispatchEnabled(cfg, env, d, Return(true))
    ensures var log := if d.run.letter.NoLetter? then v.log.(handled := v.log.handled + {d.id}) else v.log;
            Play(cfg, env, k, MessageAt(v, n, d, Waiting), AckTail(n, reached))
            == Some(Done(v, if reached then Acknowledge(log, d.id) else log, n,
                         d.(run := Returned(true), tried := true, ctxDone := true)))
  {
    var log := if d.run.letter.NoLetter? then v.log.(handled := v.log.handled + {d.id}) else v.log;
    var see := [OfMessage(n, SeeAck)] + ([OfMessage(n, Xack(reached))] + ([OfMessage(n, Unwind)] + [OfMessage(n, Leave)]));
    var v1, d1 := v.(log := log), d.(run := Returned(true));
    MessageStep(cfg, env, k, v, n, d, Waiting, Return(true));
    assert Step(cfg, env, k, MessageAt(v, n, d, Waiting), OfMessage(n, Return(true))) == MessageAt(v1, n, d1, Waiting);
    PlayOne(cfg, env, k, MessageAt(v, n, d, Waiting), OfMessage(n, Return(true)), see);
    AckIsHonoured(cfg, env, k, v1, n, d1, SeeAck, reached);
    assert Done(v1, if reached then Acknowledge(log, d.id) else log, n, d1.(tried := true, ctxDone := true))
        == Done(v, if reached then Acknowledge(log, d.id) else log, n, d1.(tried := true, ctxDone := true));
  }

  /** A message whose handler succeeds is acknowledged: its entry counts as handled and is off the pending list. */
  lemma SuccessIsAcked(cfg: Config, env: Env, k: nat, v: View, n: nat, reached: bool)
    requires n < |v.sub.deliveries| == |v.sub.stages| && v.sub.stages[n].Waiting?
    requires var d := v.sub.deliveries[n];
             d.grant < |v.log.grants| == |v.log.calls| && d.run.Idle? && 1 <= d.attempt <= cfg.cap
    ensures var d := v.sub.deliveries[n];
            var log := v.log.(calls := v.log.calls[d.grant := v.log.calls[d.grant] + 1], handled := v.log.handled + {d.id});
            Play(cfg, env, k, v, AckPath(n, CallHandler, reached))
            == Some(Done(v, if reached then Acknowledge(log, d.id) else log, n,
                         d.(run := Returned(true), begun := true, tried := true, ctxDone := true)))
  {
    var d := v.sub.deliveries[n];
    var d1 := d.(run := Running(0, NoLetter), begun := true);
    assert v == MessageAt(v, n, d, Waiting);
    MessageStep(cfg, env, k, v, n, d, Waiting, BeginDispatch);
    MessageStep(cfg, env, k, v, n, d1, Waiting, CallHandler);
    PlayOne(cfg, env, k, v, OfMessage(n, BeginDispatch), [OfMessage(n, CallHandler)] + AckTail(n, reached));
    PlayOne(cfg, env, k, MessageAt(v, n, d1, Waiting), OfMessage(n, CallHandler), AckTail(n, reached));
    ReturnsAcked(cfg, env, k, v.(log := Invoke(v.log, d.grant)), n, d1.(run := Running(1, NoLetter)), reached);
  }

  /** A message whose dead letter is accepted is acknowledged, at any attempt: its entry is in the DLQ and off the pending
      list, and nothing counts as handled. */
  lemma LetterIsAcked(cfg: Config, env: Env, k: nat, v: View, n: nat, reached: bool)
    requires n < |v.sub.deliveries| == |v.sub.stages| && v.sub.stages[n].Waiting?
    requires var d := v.sub.deliveries[n]; d.grant < |v.log.grants| == |v.log.calls| && d.run.Idle?
    ensures var d, log := v.sub.deliveries[n], v.log.(dlq := v.log.dlq + [v.sub.deliveries[n].id]);
            Play(cfg, env, k, v, AckPath(n, PublishLetter(true, true), reached))
            == Some(Done(v, if reached then Acknowledge(log, d.id) else log, n,
                         d.(run := Returned(true), begun := true, tried := true, ctxDone := true)))
  {
    var d, letter := v.sub.deliveries[n], PublishLetter(true, true);
    var d1 := d.(run := Running(0, NoLetter), begun := true);
    assert v == MessageAt(v, n, d, Waiting);
    MessageStep(cfg, env, k, v, n, d, Waiting, BeginDispatch);
    MessageStep(cfg, env, k, v, n, d1, Waiting, letter);
    PlayOne(cfg, env, k, v, OfMessage(n, BeginDispatch), [OfMessage(n, letter)] + AckTail(n, reached));
    PlayOne(cfg, env, k, MessageAt(v, n, d1, Waiting), OfMessage(n, letter), AckTail(n, reached));
    ReturnsAcked(cfg, env, k, v.(log := RedisStream.WriteLetter(v.log, d.id)), n, d1.(run := Running(0, Accepted)), reached);
  }
}
