/** What can always happen next: no subscription is ever stuck, and what is undelivered, pending or without a group
    can be delivered, reclaimed or repaired. Whether and when it happens is up to the scheduler and the clock. */
module ConsumeProgress {
  import opened Basics
  import opened RedisStream
  import opened Subscriber
  import opened SubscriberInvariant
  import opened ConsumeSystem

  // ----- no deadlock -----

  ghost predicate CanStep(cfg: Config, env: Env, v: View) {
    exists a :: Enabled(cfg, env, v, a)
  }

  lemma LoopStageMoves(cfg: Config, env: Env, v: View, who: Loop)
    requires LoopsOwn(v.sub) && Current(v.sub, who).Some?
    ensures CanStep(cfg, env, v)
  {
    var n := Current(v.sub, who).value;
    var e := match v.sub.stages[n]
      case Decoding => if v.sub.deliveries[n].id in v.log.undecodable then Hook(false, false) else Decode
      case HookAcking => HookXack(false)
      case Dropping => Drop
      case _ => Send;
    assert v.sub.stages[n] in LOOP_STAGES;
    assert Enabled(cfg, env, v, OfEmit(who, e));
  }

  lemma ClaimerMoves(cfg: Config, env: Env, v: View)
    requires LoopsOwn(v.sub) && !v.sub.claimer.CDone?
    requires v.sub.claimer.CSweep? && v.sub.claimer.todo != [] ==> v.sub.sem < cfg.concurrency
    ensures CanStep(cfg, env, v)
  {
    if v.sub.claimer.CEmit? {
      LoopStageMoves(cfg, env, v, ClaimLoop);
    } else {
      var c := match v.sub.claimer
        case CTick => ClaimTick
        case CScan => ClaimScanFailed(Other)
        case CSweep(todo) => if todo == [] then ClaimResume else ClaimAcquire
        case CClaim(_) => ClaimNothing(Other)
        case CRelease(_, _) => ClaimRelease
        case CRecreate(_) => ClaimRecreate(false)
        case _ => ClaimResume;
      assert Enabled(cfg, env, v, OfClaimer(c));
    }
  }

  lemma ReaderMoves(cfg: Config, env: Env, v: View)
    requires LoopsOwn(v.sub) && !v.sub.reader.RDone?
    requires v.sub.reader.RAcquire? ==> v.sub.sem < cfg.concurrency
    ensures CanStep(cfg, env, v)
  {
    if v.sub.reader.REmit? {
      LoopStageMoves(cfg, env, v, ReadLoop);
    } else {
      var r := match v.sub.reader
        case RAcquire => ReadAcquire
        case RRead => ReadNothing(Other)
        case RRelease(_) => ReadRelease
        case RRecreate => ReadRecreate(false)
        case _ => ReadResume;
      assert Enabled(cfg, env, v, OfReader(r));
    }
  }

  /** A message that holds a slot can go on: its dispatch call, or its waiter. */
  lemma SlotHolderMoves(cfg: Config, env: Env, v: View, n: nat)
    requires n < |v.sub.deliveries| == |v.sub.stages| && v.sub.stages[n] in SLOT_STAGES
    requires v.sub.deliveries[n].grant < |v.log.grants| == |v.log.calls|
    ensures CanStep(cfg, env, v)
  {
    var d := v.sub.deliveries[n];
    var m := match v.sub.stages[n]
      case Acking => Xack(false)
      case Unwinding => Unwind
      case _ =>
        match d.run
        case Idle => BeginDispatch
        case Running(_, letter) => if letter.NoLetter? then PublishLetter(false, false) else Return(letter.Accepted?)
        case Returned(acked) => if acked then SeeAck else SeeNack;
    assert Enabled(cfg, env, v, OfMessage(n, m));
  }

  lemma {:induction false} SomeInSlot(stages: seq<Stage>) returns (n: nat)
    requires Count(stages, SLOT_STAGES) >= 1
    ensures n < |stages| && stages[n] in SLOT_STAGES
  {
    n := |stages| - 1;
    if stages[n] !in SLOT_STAGES {
      n := SomeInSlot(stages[..n]);
    }
  }

  /** When every slot is taken, a loop or a message that holds one can go on. */
  lemma FullMoves(cfg: Config, env: Env, k: nat, v: View)
    requires Ready(cfg, env.closing, k, v) && 1 <= cfg.concurrency && v.sub.sem == cfg.concurrency
    ensures CanStep(cfg, env, v)
  {
    if ReaderHolds(v.sub) {
      ReaderMoves(cfg, env, v);
    } else if ClaimerHolds(v.sub) {
      ClaimerMoves(cfg, env, v);
    } else {
      var n := SomeInSlot(v.sub.stages);
      assert Granted(cfg, v.log, k, v.sub.deliveries[n]);
      SlotHolderMoves(cfg, env, v, n);
    }
  }

  /** In every reachable state, a subscription that has not finished has an enabled step of its own: full slots
      block the loops only while something that holds a slot can move. */
  lemma NeverStuck(cfg: Config, states: seq<State>, acts: seq<Act>, i: nat, k: nat)
    requires IsRun(cfg, states, acts) && i < |states| && 1 <= cfg.concurrency
    requires Live(states[i], k) && !states[i].subs[k].finished
    ensures exists a :: ActEnabled(cfg, states[i], Local(k, a))
  {
    Reachable(cfg, states, acts, i);
    var st := states[i];
    assert SubOk(cfg, st, k) && LogInv(cfg, st.logs[st.subs[k].log]);
    OutstandingAtLeast(st.subs, k);
    var env, v := EnvOf(st, k), ViewOf(st, k);
    if v.sub.sem == cfg.concurrency {
      FullMoves(cfg, env, k, v);
    } else if !v.sub.reader.RDone? {
      ReaderMoves(cfg, env, v);
    } else if !v.sub.claimer.CDone? {
      ClaimerMoves(cfg, env, v);
    } else {
      assert Enabled(cfg, env, v, OfEnd(if v.sub.outClosed then Finish else CloseOut));
    }
    var a :| Enabled(cfg, env, v, a);
    assert ActEnabled(cfg, st, Local(k, a));
  }

  // ----- what the loops can do for an entry -----

  /** The view after some steps, each enabled where it is taken (None otherwise). */
  ghost function Play(cfg: Config, env: Env, k: nat, v: View, acts: seq<SubAct>): Option<View>
    decreases |acts|
  {
    if acts == [] then Some(v)
    else if Enabled(cfg, env, v, acts[0]) then Play(cfg, env, k, Step(cfg, env, k, v, acts[0]), acts[1..])
    else None
  }

  lemma PlayOne(cfg: Config, env: Env, k: nat, v: View, a: SubAct, rest: seq<SubAct>)
    requires Enabled(cfg, env, v, a)
    ensures Play(cfg, env, k, v, [a] + rest) == Play(cfg, env, k, Step(cfg, env, k, v, a), rest)
  {
    assert ([a] + rest)[1..] == rest;
  }

  /** A read loop that finds the group missing restores it at the start of the stream, without its slot. */
  lemma MissingGroupIsRepaired(cfg: Config, env: Env, k: nat, v: View)
    requires v.sub.reader.RRead? && v.log.group.None? && !env.Stopping() && 1 <= v.sub.sem
    ensures var acts := [OfReader(ReadNothing(NoGroup))] + ([OfReader(ReadRelease)] + [OfReader(ReadRecreate(true))]);
            var after := Play(cfg, env, k, v, acts);
            && after.Some?
            && after.value.log == v.log.(group := Some(Group(0, map[])), creations := v.log.creations + 1)
            && after.value.sub == v.sub.(reader := RPause, sem := v.sub.sem - 1)
  {
    PlayOne(cfg, env, k, v, OfReader(ReadNothing(NoGroup)), [OfReader(ReadRelease)] + [OfReader(ReadRecreate(true))]);
    var v1 := Step(cfg, env, k, v, OfReader(ReadNothing(NoGroup)));
    PlayOne(cfg, env, k, v1, OfReader(ReadRelease), [OfReader(ReadRecreate(true))]);
    var v2 := Step(cfg, env, k, v1, OfReader(ReadRelease));
    PlayOne(cfg, env, k, v2, OfReader(ReadRecreate(true)), []);
    assert [OfReader(ReadRecreate(true))] + [] == [OfReader(ReadRecreate(true))];
  }

  /** A sweep that finds the group missing restores it, pauses, and waits for the next tick. */
  lemma MissingGroupIsRepairedByScan(cfg: Config, env: Env, k: nat, v: View)
    requires v.sub.claimer.CScan? && v.log.group.None? && !env.Stopping()
    ensures var acts := [OfClaimer(ClaimScanFailed(NoGroup))] + ([OfClaimer(ClaimRecreate(true))] + [OfClaimer(ClaimResume)]);
            var after := Play(cfg, env, k, v, acts);
            && after.Some?
            && after.value.log == v.log.(group := Some(Group(0, map[])), creations := v.log.creations + 1)
            && after.value.sub == v.sub.(claimer := CTick)
  {
    var s0, s1, s2 := OfClaimer(ClaimScanFailed(NoGroup)), OfClaimer(ClaimRecreate(true)), OfClaimer(ClaimResume);
    PlayOne(cfg, env, k, v, s0, [s1] + [s2]);
    var v1 := Step(cfg, env, k, v, s0);
    PlayOne(cfg, env, k, v1, s1, [s2]);
    var v2 := Step(cfg, env, k, v1, s1);
    PlayOne(cfg, env, k, v2, s2, []);
    assert [s2] + [] == [s2];
  }

  /** A claim that finds the group missing gives its slot back, restores the group and drops the rest of the sweep,
      whose lines went with the lost group. */
  lemma MissingGroupIsRepairedByClaim(cfg: Config, env: Env, k: nat, v: View)
    requires v.sub.claimer.CClaim? && v.sub.claimer.todo != [] && v.log.group.None? && !env.Stopping() && 1 <= v.sub.sem
    ensures var acts := [OfClaimer(ClaimNothing(NoGroup))] + ([OfClaimer(ClaimRelease)] + [OfClaimer(ClaimRecreate(true))]);
            var after := Play(cfg, env, k, v, acts);
            && after.Some?
            && after.value.log == v.log.(group := Some(Group(0, map[])), creations := v.log.creations + 1)
            && after.value.sub == v.sub.(claimer := CTick, sem := v.sub.sem - 1)
  {
    var s0, s1, s2 := OfClaimer(ClaimNothing(NoGroup)), OfClaimer(ClaimRelease), OfClaimer(ClaimRecreate(true));
    PlayOne(cfg, env, k, v, s0, [s1] + [s2]);
    var v1 := Step(cfg, env, k, v, s0);
    PlayOne(cfg, env, k, v1, s1, [s2]);
    var v2 := Step(cfg, env, k, v1, s1);
    PlayOne(cfg, env, k, v2, s2, []);
    assert [s2] + [] == [s2];
  }

  /** A decoded message, the latest its subscription received, goes to the router, and its loop goes on. */
  lemma HandsOver(cfg: Config, env: Env, k: nat, v: View, who: Loop, before: seq<Stage>)
    requires Emitting(v.sub, who) && Current(v.sub, who) == Some(|before|) && v.sub.stages == before + [Decoding]
    requires v.sub.deliveries[|before|].id !in v.log.undecodable
    ensures Play(cfg, env, k, v, [OfEmit(who, Decode)] + [OfEmit(who, Send)])
         == Some(View(v.log, EmitControl(env, v.sub, who, Send).(stages := before + [Waiting]), v.wg + 1))
  {
    var n := |before|;
    var v1 := v.(sub := v.sub.(stages := before + [Sending]));
    Decodes(cfg, env, k, v, who, before);
    Sends(cfg, env, k, v1, who, before);
    PlayOne(cfg, env, k, v, OfEmit(who, Decode), [OfEmit(who, Send)]);
    PlayOne(cfg, env, k, v1, OfEmit(who, Send), []);
    assert [OfEmit(who, Send)] + [] == [OfEmit(who, Send)];
  }

  lemma Decodes(cfg: Config, env: Env, k: nat, v: View, who: Loop, before: seq<Stage>)
    requires Emitting(v.sub, who) && Current(v.sub, who) == Some(|before|) && v.sub.stages == before + [Decoding]
    requires v.sub.deliveries[|before|].id !in v.log.undecodable
    ensures EmitEnabled(env, v, who, Decode)
    ensures EmitStep(env, v, who, Decode) == v.(sub := v.sub.(stages := before + [Sending]))
  {
    var n := |before|;
    assert v.sub.stages[n := Sending] == before + [Sending];
    assert v.sub.deliveries[n := v.sub.deliveries[n]] == v.sub.deliveries;
  }

  lemma Sends(cfg: Config, env: Env, k: nat, v: View, who: Loop, before: seq<Stage>)
    requires Emitting(v.sub, who) && Current(v.sub, who) == Some(|before|) && v.sub.stages == before + [Sending]
    ensures EmitEnabled(env, v, who, Send)
    ensures EmitStep(env, v, who, Send)
         == View(v.log, EmitControl(env, v.sub, who, Send).(stages := before + [Waiting]), v.wg + 1)
  {
    var n := |before|;
    assert v.sub.stages[n := Waiting] == before + [Waiting];
    assert v.sub.deliveries[n := v.sub.deliveries[n]] == v.sub.deliveries;
  }

  /** Received now under the next grant and handed to the router: the message holds a slot of its own. */
  function Waits(env: Env, v: View, id: nat, attempt: nat, isRead: bool): Sub {
    var d := Delivery(|v.log.grants|, id, attempt, env.now, isRead, Idle, false, false, false);
    v.sub.(deliveries := v.sub.deliveries + [d], stages := v.sub.stages + [Waiting], sem := v.sub.sem + 1)
  }

  function ReadPath(id: nat): seq<SubAct> {
    [OfReader(ReadAcquire)] + ([OfReader(ReadEntry(id))] + ([OfEmit(ReadLoop, Decode)] + [OfEmit(ReadLoop, Send)]))
  }

  /** The first undelivered entry can be read and handed to the router as attempt 1; the read loop is then back at
      its top and the message holds the slot. */
  lemma UndeliveredIsRead(cfg: Config, env: Env, k: nat, v: View, id: nat)
    requires v.sub.reader.RAcquire? && v.sub.sem < cfg.concurrency && |v.sub.deliveries| == |v.sub.stages|
    requires IsNext(v.log, id) && id !in v.log.undecodable
    ensures Play(cfg, env, k, v, ReadPath(id))
         == Some(View(ReadNew(v.log, env.now, id, k, 1), Waits(env, v, id, 1, true), v.wg + 1))
  {
    var rest := [OfEmit(ReadLoop, Decode)] + [OfEmit(ReadLoop, Send)];
    PlayOne(cfg, env, k, v, OfReader(ReadAcquire), [OfReader(ReadEntry(id))] + rest);
    var v1 := Step(cfg, env, k, v, OfReader(ReadAcquire));
    PlayOne(cfg, env, k, v1, OfReader(ReadEntry(id)), rest);
    var v2 := Step(cfg, env, k, v1, OfReader(ReadEntry(id)));
    HandsOver(cfg, env, k, v2, ReadLoop, v.sub.stages);
  }

  function ClaimPath(reply: seq<Snapshot>): seq<SubAct> {
    [OfClaimer(ClaimTick)] + ([OfClaimer(ClaimScan(reply))] + ([OfClaimer(ClaimAcquire)] + ([OfClaimer(ClaimEntry)]
    + ([OfEmit(ClaimLoop, Decode)] + [OfEmit(ClaimLoop, Send)]))))
  }

  function Reclaimed(env: Env, k: nat, v: View, id: nat, count: nat, todo: seq<Snapshot>): View
    requires v.log.group.Some? && id in v.log.group.value.pel
  {
    View(Claim(v.log, env.now, id, k, count), Waits(env, v, id, count, false).(claimer := CSweep(todo)), v.wg + 1)
  }

  /** The first line of a sweep can be claimed and handed to the router, stamped with the server's next count; the
      rest of the sweep stays to be done. */
  lemma PendingIsReclaimed(cfg: Config, env: Env, k: nat, v: View, reply: seq<Snapshot>)
    requires v.sub.claimer.CTick? && v.sub.sem < cfg.concurrency && |v.sub.deliveries| == |v.sub.stages|
    requires IsPendingReply(v.log, env.now, cfg.minIdle, CLAIM_BATCH, reply) && reply != []
    requires reply[0].id !in v.log.undecodable
    ensures Play(cfg, env, k, v, ClaimPath(reply))
         == Some(Reclaimed(env, k, v, reply[0].id, v.log.group.value.pel[reply[0].id].count + 1, reply[1..]))
  {
    var emit := [OfEmit(ClaimLoop, Decode)] + [OfEmit(ClaimLoop, Send)];
    var s0, s1, s2, s3 := OfClaimer(ClaimTick), OfClaimer(ClaimScan(reply)), OfClaimer(ClaimAcquire), OfClaimer(ClaimEntry);
    PlayOne(cfg, env, k, v, s0, [s1] + ([s2] + ([s3] + emit)));
    var v1 := Step(cfg, env, k, v, s0);
    PlayOne(cfg, env, k, v1, s1, [s2] + ([s3] + emit));
    var v2 := Step(cfg, env, k, v1, s1);
    PlayOne(cfg, env, k, v2, s2, [s3] + emit);
    var v3 := Step(cfg, env, k, v2, s2);
    PlayOne(cfg, env, k, v3, s3, emit);
    HandsOver(cfg, env, k, Step(cfg, env, k, v3, s3), ClaimLoop, v.sub.stages);
  }

  // ----- a handler that fails -----

  function NackPath(n: nat): seq<SubAct> {
    [OfMessage(n, BeginDispatch)] + ([OfMessage(n, CallHandler)] + ([OfMessage(n, Return(false))]
    + ([OfMessage(n, SeeNack)] + ([OfMessage(n, Unwind)] + [OfMessage(n, Leave)]))))
  }

  /** The delivery with its dispatch over and its waiter gone. */
  function Nacked(v: View, n: nat): View
    requires n < |v.sub.deliveries| == |v.sub.stages| && v.sub.deliveries[n].grant < |v.log.calls|
  {
    var d := v.sub.deliveries[n];
    View(Invoke(v.log, d.grant),
         v.sub.(deliveries := v.sub.deliveries[n := d.(run := Returned(false), begun := true, ctxDone := true)],
                stages := v.sub.stages[n := Gone], sem := Less(v.sub.sem)),
         Less(v.wg))
  }

  /** The view after some steps of message `n`, given its delivery and stage by then. */
  function MessageAt(v: View, n: nat, d: Delivery, stage: Stage): View
    requires n < |v.sub.deliveries| == |v.sub.stages|
  {
    v.(sub := v.sub.(deliveries := v.sub.deliveries[n := d], stages := v.sub.stages[n := stage]))
  }

  lemma MessageStep(cfg: Config, env: Env, k: nat, v: View, n: nat, d: Delivery, stage: Stage, a: MsgAct)
    requires n < |v.sub.deliveries| == |v.sub.stages| && Sent(stage) && d.grant < |v.log.grants| == |v.log.calls|
    requires DispatchEnabled(cfg, env, d, a) || WaiterEnabled(env, d, stage, a)
    ensures var w := MessageAt(v, n, d, stage);
            && Enabled(cfg, env, w, OfMessage(n, a))
            && Step(cfg, env, k, w, OfMessage(n, a))
               == View(MsgLog(v.log, d, a),
                       MessageAt(v, n, MsgDelivery(cfg, d, a), MsgStage(d, stage, a)).sub.(
                         sem := if a.Unwind? then Less(v.sub.sem) else v.sub.sem),
                       if a.Leave? then Less(v.wg) else v.wg)
  {
    var w := MessageAt(v, n, d, stage);
    var d', stage' := MsgDelivery(cfg, d, a), MsgStage(d, stage, a);
    assert w.sub.deliveries[n := d'] == v.sub.deliveries[n := d'];
    assert w.sub.stages[n := stage'] == v.sub.stages[n := stage'];
  }

  /** The waiter of a nacked message gives back its slot and ends. */
  lemma WaiterEnds(cfg: Config, env: Env, k: nat, v: View, n: nat, d: Delivery)
    requires n < |v.sub.deliveries| == |v.sub.stages| && d.grant < |v.log.grants| == |v.log.calls|
    ensures Play(cfg, env, k, MessageAt(v, n, d, Unwinding), [OfMessage(n, Unwind)] + [OfMessage(n, Leave)])
         == Some(MessageAt(v, n, d.(ctxDone := true), Gone).(
                   sub := MessageAt(v, n, d.(ctxDone := true), Gone).sub.(sem := Less(v.sub.sem)), wg := Less(v.wg)))
  {
    var v5 := v.(sub := v.sub.(sem := Less(v.sub.sem)));
    MessageStep(cfg, env, k, v, n, d, Unwinding, Unwind);
    MessageStep(cfg, env, k, v5, n, d.(ctxDone := true), Leaving, Leave);
    PlayOne(cfg, env, k, MessageAt(v, n, d, Unwinding), OfMessage(n, Unwind), [OfMessage(n, Leave)]);
    PlayOne(cfg, env, k, MessageAt(v5, n, d.(ctxDone := true), Leaving), OfMessage(n, Leave), []);
    assert [OfMessage(n, Leave)] + [] == [OfMessage(n, Leave)];
  }

  /** A message within the cap whose handler fails once, or on its last retry, can be nacked: its entry stays
      pending, its slot and its waiter are given back. */
  lemma FailureIsNacked(cfg: Config, env: Env, k: nat, v: View, n: nat)
    requires n < |v.sub.deliveries| == |v.sub.stages| && v.sub.stages[n].Waiting?
    requires var d := v.sub.deliveries[n];
             d.grant < |v.log.grants| == |v.log.calls| && d.run.Idle? && 1 <= d.attempt <= cfg.cap
    ensures Play(cfg, env, k, v, NackPath(n)) == Some(Nacked(v, n))
  {
    var d := v.sub.deliveries[n];
    var d1 := d.(run := Running(0, NoLetter), begun := true);
    var v2 := v.(log := Invoke(v.log, d.grant));
    assert v == MessageAt(v, n, d, Waiting);
    MessageStep(cfg, env, k, v, n, d, Waiting, BeginDispatch);
    MessageStep(cfg, env, k, v, n, d1, Waiting, CallHandler);
    var end := [OfMessage(n, Unwind)] + [OfMessage(n, Leave)];
    var tail := [OfMessage(n, Return(false))] + ([OfMessage(n, SeeNack)] + end);
    PlayOne(cfg, env, k, v, OfMessage(n, BeginDispatch), [OfMessage(n, CallHandler)] + tail);
    PlayOne(cfg, env, k, MessageAt(v, n, d1, Waiting), OfMessage(n, CallHandler), tail);
    FailureReturns(cfg, env, k, v2, n, d1.(run := Running(1, NoLetter)), end);
    WaiterEnds(cfg, env, k, v2, n, d1.(run := Returned(false)));
  }

  lemma FailureReturns(cfg: Config, env: Env, k: nat, v: View, n: nat, d: Delivery, rest: seq<SubAct>)
    requires n < |v.sub.deliveries| == |v.sub.stages| && d.grant < |v.log.grants| == |v.log.calls|
    requires d.run == Running(1, NoLetter)
    ensures Play(cfg, env, k, MessageAt(v, n, d, Waiting), [OfMessage(n, Return(false))] + ([OfMessage(n, SeeNack)] + rest))
         == Play(cfg, env, k, MessageAt(v, n, d.(run := Returned(false)), Unwinding), rest)
  {
    var d' := d.(run := Returned(false));
    MessageStep(cfg, env, k, v, n, d, Waiting, Return(false));
    MessageStep(cfg, env, k, v, n, d', Waiting, SeeNack);
    PlayOne(cfg, env, k, MessageAt(v, n, d, Waiting), OfMessage(n, Return(false)), [OfMessage(n, SeeNack)] + rest);
    PlayOne(cfg, env, k, MessageAt(v, n, d', Waiting), OfMessage(n, SeeNack), rest);
  }
}
