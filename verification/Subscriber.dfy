/** One subscription of internal/watermill/subscriber.go as a transition system: its read loop, its
    claim loop, and for every message the waiter goroutine and the dispatch call that handles it.

    Each action is one atomic step of one goroutine: a channel operation, a Redis command, or a local
    decision. The semaphore and the Subscriber's WaitGroup are counters of their own, changed exactly
    where the code changes them. */
module Subscriber {
  import opened Basics
  import opened RedisStream

  /** Where a delivery is. The loop that received it owns it up to Sending; the waiter goroutine owns
      it from Waiting on. Dropped: the loop gave it up without sending it. */
  datatype Stage =
    | Decoding | HookAcking | Dropping | Sending | Dropped
    | Waiting | Acking | Unwinding | Leaving | Gone

  const LOOP_STAGES: set<Stage> := {Decoding, HookAcking, Dropping, Sending}
  const SLOT_STAGES: set<Stage> := {Waiting, Acking, Unwinding}
  const WAITER_STAGES: set<Stage> := {Waiting, Acking, Unwinding, Leaving}

  datatype Letter = NoLetter | Refused | Accepted

  /** The dispatch call for a message. `Returned` carries what the router then does: ack or nack. */
  datatype Run = Idle | Running(calls: nat, letter: Letter) | Returned(acked: bool)

  /** One delivery received by this subscription. `begun` records that its dispatch call started,
      `tried` that its XACK was attempted. */
  datatype Delivery = Delivery(
    grant: nat, id: nat, attempt: nat, since: nat, isRead: bool,
    run: Run, begun: bool, ctxDone: bool, tried: bool)

  datatype Failure = Nothing | NoGroup | Other

  datatype Reader =
    | RAcquire | RRead | RRelease(f: Failure) | REmit(n: nat) | RRecreate | RPause | RDone

  datatype Claimer =
    | CTick | CScan | CSweep(todo: seq<Snapshot>) | CClaim(todo: seq<Snapshot>)
    | CRelease(todo: seq<Snapshot>, f: Failure) | CEmit(n: nat, todo: seq<Snapshot>)
    | CRecreate(pause: bool) | CPause | CDone

  /** `stages[n]` is the stage of `deliveries[n]`. Deliveries stay in the list when they are over. */
  datatype Sub = Sub(
    inst: nat, log: nat, sem: nat,
    reader: Reader, claimer: Claimer,
    outClosed: bool, finished: bool,
    deliveries: seq<Delivery>, stages: seq<Stage>)

  /** What the subscription's goroutines see of the process: the clock, Subscriber.Close begun, ctx cancelled. */
  datatype Env = Env(now: nat, closing: bool, ctxDone: bool) {
    predicate Stopping() { closing || ctxDone }
  }

  /** A subscription with the stream it reads and its Subscriber's WaitGroup. */
  datatype View = View(log: Log, sub: Sub, wg: nat)

  datatype Loop = ReadLoop | ClaimLoop

  datatype ReadAct =
    | ReadAcquire | ReadHalt | ReadEntry(id: nat) | ReadReplyLost(id: nat) | ReadNothing(f: Failure)
    | ReadRelease | ReadRecreate(ok: bool) | ReadResume

  datatype ClaimAct =
    | ClaimTick | ClaimHalt | ClaimScan(reply: seq<Snapshot>) | ClaimScanFailed(f: Failure)
    | ClaimAcquire | ClaimEntry | ClaimReplyLost | ClaimNothing(f: Failure)
    | ClaimRelease | ClaimRecreate(ok: bool) | ClaimResume

  /** A dead letter may be `written` although its reply is lost and it is not `accepted`. */
  datatype EmitAct = Hook(accepted: bool, written: bool) | HookXack(reached: bool) | Drop | Decode | Send | Unsend

  datatype EndAct = CloseOut | Finish

  datatype MsgAct =
    | BeginDispatch | CallHandler | PublishLetter(accepted: bool, written: bool) | Return(acked: bool) | RouterNack
    | SeeAck | SeeNack | SeeClosing | Xack(reached: bool) | Unwind | Leave

  const CLAIM_BATCH: nat := 100

  /** `sem - 1` and `wg - 1` below are a channel receive and WaitGroup.Done: the invariant shows that
      neither is ever reached at zero. */
  function Less(n: nat): nat {
    if n == 0 then 0 else n - 1
  }

  /** A delivery received under the grant the server records in the same step. */
  function Receive(v: View, env: Env, id: nat, attempt: nat, isRead: bool): Sub {
    var d := Delivery(|v.log.grants|, id, attempt, env.now, isRead, Idle, false, false, false);
    v.sub.(deliveries := v.sub.deliveries + [d],
           stages := v.sub.stages + [Decoding])
  }

  // ----- the read loop -----

  ghost predicate ReadEnabled(cfg: Config, env: Env, v: View, a: ReadAct) {
    match a
    case ReadAcquire => v.sub.reader.RAcquire? && v.sub.sem < cfg.concurrency
    case ReadHalt => v.sub.reader.RAcquire? && env.Stopping()
    case ReadEntry(id) => v.sub.reader.RRead? && IsNext(v.log, id)
    case ReadReplyLost(id) => v.sub.reader.RRead? && IsNext(v.log, id)
    case ReadNothing(f) =>
      && v.sub.reader.RRead?
      && (f.Nothing? ==> NothingNew(v.log))
      && (f.NoGroup? ==> v.log.group.None?)
    case ReadRelease => v.sub.reader.RRelease?
    case ReadRecreate(_) => v.sub.reader.RRecreate?
    case ReadResume => v.sub.reader.RPause?
  }

  /** After a fruitless read: leave when stopping, restore a missing group, pause on an error, or go on. */
  function AfterRead(env: Env, f: Failure): Reader {
    if env.Stopping() then RDone
    else match f
         case Nothing => RAcquire
         case NoGroup => RRecreate
         case Other => RPause
  }

  function ReadStep(cfg: Config, env: Env, k: nat, v: View, a: ReadAct): View
    requires ReadEnabled(cfg, env, v, a)
  {
    var sub, log := v.sub, v.log;
    match a
    case ReadAcquire => v.(sub := sub.(sem := sub.sem + 1, reader := RRead))
    case ReadHalt => v.(sub := sub.(reader := RDone))
    case ReadEntry(id) =>
      v.(log := ReadNew(log, env.now, id, k, 1),
         sub := Receive(v, env, id, 1, true).(reader := REmit(|sub.deliveries|)))
    case ReadReplyLost(id) =>
      v.(log := ReadNew(log, env.now, id, k, 0), sub := sub.(reader := RRelease(Other)))
    case ReadNothing(f) => v.(sub := sub.(reader := RRelease(f)))
    case ReadRelease => v.(sub := sub.(reader := AfterRead(env, sub.reader.f), sem := Less(sub.sem)))
    case ReadRecreate(ok) => v.(log := if ok then EnsureGroup(log) else log, sub := sub.(reader := RPause))
    case ReadResume => v.(sub := sub.(reader := RAcquire))
  }

  // ----- the claim loop -----

  predicate HeadClaimable(cfg: Config, env: Env, v: View) {
    && v.sub.claimer.CClaim? && v.sub.claimer.todo != []
    && Claimable(v.log, env.now, cfg.minIdle, v.sub.claimer.todo[0].id)
  }

  ghost predicate ClaimEnabled(cfg: Config, env: Env, v: View, a: ClaimAct) {
    var c := v.sub.claimer;
    match a
    case ClaimTick => c.CTick?
    case ClaimHalt => (c.CTick? || (c.CSweep? && c.todo != [])) && env.Stopping()
    case ClaimScan(reply) => c.CScan? && IsPendingReply(v.log, env.now, cfg.minIdle, CLAIM_BATCH, reply)
    case ClaimScanFailed(f) => c.CScan? && !f.Nothing? && (f.NoGroup? ==> v.log.group.None?)
    case ClaimAcquire => c.CSweep? && c.todo != [] && v.sub.sem < cfg.concurrency
    case ClaimEntry => HeadClaimable(cfg, env, v)
    case ClaimReplyLost => HeadClaimable(cfg, env, v)
    case ClaimNothing(f) =>
      && c.CClaim? && c.todo != []
      && (f.Nothing? ==> v.log.group.Some? && !HeadClaimable(cfg, env, v))
      && (f.NoGroup? ==> v.log.group.None?)
    case ClaimRelease => c.CRelease?
    case ClaimRecreate(_) => c.CRecreate?
    case ClaimResume => c.CPause? || (c.CSweep? && c.todo == [])
  }

  /** After a fruitless claim: leave when stopping, restore a missing group, or try the next entry. */
  function AfterClaim(env: Env, todo: seq<Snapshot>, f: Failure): Claimer {
    if env.Stopping() then CDone
    else if f.NoGroup? then CRecreate(false)
    else CSweep(todo)
  }

  function ClaimStep(cfg: Config, env: Env, k: nat, v: View, a: ClaimAct): View
    requires ClaimEnabled(cfg, env, v, a)
  {
    var sub, log, c := v.sub, v.log, v.sub.claimer;
    match a
    case ClaimTick => v.(sub := sub.(claimer := CScan))
    case ClaimHalt => v.(sub := sub.(claimer := CDone))
    case ClaimScan(reply) => v.(sub := sub.(claimer := CSweep(reply)))
    case ClaimScanFailed(f) =>
      v.(sub := sub.(claimer := if env.Stopping() then CDone else if f.NoGroup? then CRecreate(true) else CPause))
    case ClaimAcquire => v.(sub := sub.(sem := sub.sem + 1, claimer := CClaim(c.todo)))
    case ClaimEntry =>
      var p := c.todo[0];
      v.(log := Claim(log, env.now, p.id, k, p.count + 1),
         sub := Receive(v, env, p.id, p.count + 1, false).(claimer := CEmit(|sub.deliveries|, c.todo[1..])))
    case ClaimReplyLost =>
      v.(log := Claim(log, env.now, c.todo[0].id, k, 0), sub := sub.(claimer := CRelease(c.todo[1..], Other)))
    case ClaimNothing(f) => v.(sub := sub.(claimer := CRelease(c.todo[1..], f)))
    case ClaimRelease => v.(sub := sub.(claimer := AfterClaim(env, c.todo, c.f), sem := Less(sub.sem)))
    case ClaimRecreate(ok) =>
      v.(log := if ok then EnsureGroup(log) else log, sub := sub.(claimer := if c.pause then CPause else CTick))
    case ClaimResume => v.(sub := sub.(claimer := CTick))
  }

  // ----- emit -----

  /** The delivery a loop is emitting. */
  function Current(sub: Sub, who: Loop): Option<nat> {
    match who
    case ReadLoop => if sub.reader.REmit? then Some(sub.reader.n) else None
    case ClaimLoop => if sub.claimer.CEmit? then Some(sub.claimer.n) else None
  }

  predicate Emitting(sub: Sub, who: Loop) {
    && |sub.stages| == |sub.deliveries|
    && Current(sub, who).Some? && Current(sub, who).value < |sub.deliveries|
  }

  ghost predicate EmitEnabled(env: Env, v: View, who: Loop, a: EmitAct) {
    && Emitting(v.sub, who)
    && var n := Current(v.sub, who).value;
       var stage, bad := v.sub.stages[n], v.sub.deliveries[n].id in v.log.undecodable;
       match a
       case Hook(accepted, written) => stage.Decoding? && bad && (accepted ==> written)
       case Decode => stage.Decoding? && !bad
       case HookXack(_) => stage.HookAcking?
       case Drop => stage.Dropping?
       case Send => stage.Sending?
       case Unsend => stage.Sending? && env.Stopping()
  }

  /** The stage a delivery enters by an emission step. */
  function EmitStage(a: EmitAct): Stage {
    match a
    case Hook(accepted, _) => if accepted then HookAcking else Dropping
    case HookXack(_) => Dropping
    case Drop => Dropped
    case Decode => Sending
    case Send => Waiting
    case Unsend => Dropped
  }

  /** Where the loop is after an emission step: still emitting, back at its top, or out. */
  function EmitControl(env: Env, sub: Sub, who: Loop, a: EmitAct): Sub {
    if a.Hook? || a.HookXack? || a.Decode? then sub
    else if a.Unsend? || (a.Drop? && env.Stopping()) then
      (match who case ReadLoop => sub.(reader := RDone) case ClaimLoop => sub.(claimer := CDone))
    else
      (match who
       case ReadLoop => sub.(reader := RAcquire)
       case ClaimLoop => if sub.claimer.CEmit? then sub.(claimer := CSweep(sub.claimer.todo)) else sub)
  }

  function EmitStep(env: Env, v: View, who: Loop, a: EmitAct): View
    requires EmitEnabled(env, v, who, a)
  {
    var n := Current(v.sub, who).value;
    var d := v.sub.deliveries[n];
    var log := match a
      case Hook(_, true) => RedisStream.WriteLetter(v.log, d.id)
      case HookXack(true) => Ack(v.log, d.id)
      case _ => v.log;
    var sub := EmitControl(env, v.sub, who, a).(
      deliveries := v.sub.deliveries[n := d.(tried := a.HookXack? || d.tried, ctxDone := a.Unsend? || d.ctxDone)],
      stages := v.sub.stages[n := EmitStage(a)],
      sem := if a.Drop? || a.Unsend? then Less(v.sub.sem) else v.sub.sem);
    View(log, sub, if a.Send? then v.wg + 1 else v.wg)
  }

  // ----- the subscription's own goroutine -----

  predicate EndEnabled(v: View, a: EndAct) {
    match a
    case CloseOut => v.sub.reader.RDone? && v.sub.claimer.CDone? && !v.sub.outClosed
    case Finish => v.sub.outClosed && !v.sub.finished
  }

  function EndStep(v: View, a: EndAct): View
    requires EndEnabled(v, a)
  {
    match a
    case CloseOut => v.(sub := v.sub.(outClosed := true))
    case Finish => v.(sub := v.sub.(finished := true), wg := Less(v.wg))
  }

  // ----- one message: its dispatch call and its waiter -----

  /** The message was handed to the router. */
  predicate Sent(stage: Stage) {
    stage in WAITER_STAGES || stage == Gone
  }

  ghost predicate DispatchEnabled(cfg: Config, env: Env, d: Delivery, a: MsgAct) {
    match a
    case BeginDispatch => d.run.Idle?
    case CallHandler => d.run.Running? && d.run.letter.NoLetter? && d.run.calls < Budget(cfg, d.attempt)
    case PublishLetter(accepted, written) => d.run.Running? && d.run.letter.NoLetter? && (accepted ==> written)
    case Return(acked) =>
      && d.run.Running?
      && (if acked then d.run.letter.Accepted? || (d.run.letter.NoLetter? && d.attempt <= cfg.cap)
          else d.run.letter.Refused? || (d.run.letter.NoLetter? && 1 <= d.run.calls))
    case RouterNack => d.run.Idle? && env.Stopping()
    case _ => false
  }

  predicate WaiterEnabled(env: Env, d: Delivery, stage: Stage, a: MsgAct) {
    match a
    case SeeAck => stage.Waiting? && d.run == Returned(true)
    case SeeNack => stage.Waiting? && d.run == Returned(false)
    case SeeClosing => stage.Waiting? && env.closing
    case Xack(_) => stage.Acking?
    case Unwind => stage.Unwinding?
    case Leave => stage.Leaving?
    case _ => false
  }

  ghost predicate MsgEnabled(cfg: Config, env: Env, v: View, n: nat, a: MsgAct) {
    && n < |v.sub.deliveries| == |v.sub.stages| && Sent(v.sub.stages[n])
    && v.sub.deliveries[n].grant < |v.log.grants| == |v.log.calls|
    && var d, stage := v.sub.deliveries[n], v.sub.stages[n];
       DispatchEnabled(cfg, env, d, a) || WaiterEnabled(env, d, stage, a)
  }

  /** What the action does to the delivery's dispatch call, its context and its XACK. */
  function MsgDelivery(cfg: Config, d: Delivery, a: MsgAct): Delivery {
    match a
    case BeginDispatch => d.(run := Running(0, NoLetter), begun := true)
    case CallHandler => if d.run.Running? then d.(run := Running(d.run.calls + 1, NoLetter)) else d
    case PublishLetter(accepted, _) =>
      if d.run.Running? then d.(run := Running(d.run.calls, if accepted then Accepted else Refused)) else d
    case Return(acked) => d.(run := Returned(acked))
    case RouterNack => d.(run := Returned(false))
    case Xack(_) => d.(tried := true)
    case Unwind => d.(ctxDone := true)
    case _ => d
  }

  /** The waiter honours an ack that has already landed even when it wakes up because of Close. */
  function MsgStage(d: Delivery, stage: Stage, a: MsgAct): Stage {
    match a
    case SeeAck => Acking
    case SeeNack => Unwinding
    case SeeClosing => if d.run == Returned(true) then Acking else Unwinding
    case Xack(_) => Unwinding
    case Unwind => Leaving
    case Leave => Gone
    case _ => stage
  }

  function MsgLog(log: Log, d: Delivery, a: MsgAct): Log
    requires d.grant < |log.calls|
  {
    match a
    case CallHandler => Invoke(log, d.grant)
    case PublishLetter(_, true) => RedisStream.WriteLetter(log, d.id)
    case Return(true) => if d.run.Running? && d.run.letter.NoLetter? then Handle(log, d.id) else log
    case Xack(true) => Ack(log, d.id)
    case _ => log
  }

  function MsgStep(cfg: Config, env: Env, v: View, n: nat, a: MsgAct): View
    requires MsgEnabled(cfg, env, v, n, a)
  {
    var d := v.sub.deliveries[n];
    View(MsgLog(v.log, d, a),
         v.sub.(deliveries := v.sub.deliveries[n := MsgDelivery(cfg, d, a)],
                stages := v.sub.stages[n := MsgStage(d, v.sub.stages[n], a)],
                sem := if a.Unwind? then Less(v.sub.sem) else v.sub.sem),
         if a.Leave? then Less(v.wg) else v.wg)
  }

  // ----- all steps of a subscription -----

  datatype SubAct =
    | OfReader(r: ReadAct) | OfClaimer(c: ClaimAct) | OfEmit(who: Loop, e: EmitAct) | OfEnd(z: EndAct)
    | OfMessage(n: nat, m: MsgAct)

  ghost predicate Enabled(cfg: Config, env: Env, v: View, a: SubAct) {
    match a
    case OfReader(r) => ReadEnabled(cfg, env, v, r)
    case OfClaimer(c) => ClaimEnabled(cfg, env, v, c)
    case OfEmit(who, e) => EmitEnabled(env, v, who, e)
    case OfEnd(z) => EndEnabled(v, z)
    case OfMessage(n, m) => MsgEnabled(cfg, env, v, n, m)
  }

  function Step(cfg: Config, env: Env, k: nat, v: View, a: SubAct): View
    requires Enabled(cfg, env, v, a)
  {
    match a
    case OfReader(r) => ReadStep(cfg, env, k, v, r)
    case OfClaimer(c) => ClaimStep(cfg, env, k, v, c)
    case OfEmit(who, e) => EmitStep(env, v, who, e)
    case OfEnd(z) => EndStep(v, z)
    case OfMessage(n, m) => MsgStep(cfg, env, v, n, m)
  }
}
