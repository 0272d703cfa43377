/** A subscriber that is stopping can always finish: from every reachable state the goroutines of a subscription have a
    schedule of their own on which both loops leave, the channel is closed and every waiter gives back its slot. */
module ConsumeDrain {
  import opened Basics
  import opened RedisStream
  import opened Subscriber
  import opened SubscriberInvariant
  import opened ConsumeSystem
  import opened ConsumeStamps
  import opened ConsumeProgress
  import opened ConsumeLoops

  // ----- what is left to do -----

  function RunRank(run: Run): nat {
    match run
    case Idle => 1
    case Running(_, letter) => if letter.NoLetter? then 3 else 2
    case Returned(_) => 0
  }

  /** Steps a message and its waiter still take when the router no longer dispatches. */
  function MessageRank(d: Delivery, stage: Stage): nat {
    match stage
    case Waiting => 4 + RunRank(d.run)
    case Acking => 3
    case Unwinding => 2
    case Leaving => 1
    case _ => 0
  }

  function MessagesRank(ds: seq<Delivery>, stages: seq<Stage>): nat
    requires |ds| == |stages|
  {
    if ds == [] then 0
    else MessagesRank(ds[..|ds| - 1], stages[..|ds| - 1]) + MessageRank(ds[|ds| - 1], stages[|ds| - 1])
  }

  function LoopsRank(sub: Sub): nat {
    (if sub.reader.RDone? then 0 else 1 + ReadRank(sub)) + (if sub.claimer.CDone? then 0 else 1 + ClaimRank(sub))
  }

  function DrainRank(sub: Sub): nat
    requires |sub.deliveries| == |sub.stages|
  {
    LoopsRank(sub) + MessagesRank(sub.deliveries, sub.stages) + One(!sub.outClosed) + One(!sub.finished)
  }

  lemma {:induction false} MessagesUpdate(ds: seq<Delivery>, stages: seq<Stage>, n: nat, d: Delivery, stage: Stage)
    requires n < |ds| == |stages|
    ensures MessagesRank(ds[n := d], stages[n := stage]) + MessageRank(ds[n], stages[n])
         == MessagesRank(ds, stages) + MessageRank(d, stage)
  {
    var m := |ds| - 1;
    if n == m {
      assert ds[n := d][..m] == ds[..m] && stages[n := stage][..m] == stages[..m];
    } else {
      assert ds[n := d][..m] == ds[..m][n := d] && stages[n := stage][..m] == stages[..m][n := stage];
      MessagesUpdate(ds[..m], stages[..m], n, d, stage);
    }
  }

  // ----- one step nearer -----

  /** The step can be taken and leaves less to do. */
  ghost predicate Drains(cfg: Config, env: Env, k: nat, v: View, a: SubAct) {
    && Enabled(cfg, env, v, a) && |v.sub.deliveries| == |v.sub.stages|
    && var next := Step(cfg, env, k, v, a).sub;
       |next.deliveries| == |next.stages| && DrainRank(next) < DrainRank(v.sub)
  }

  /** Only the loops moved, and they have fewer steps left. */
  predicate LoopsMoved(sub: Sub, next: Sub) {
    && LoopsRank(next) < LoopsRank(sub) && next.deliveries == sub.deliveries && next.stages == sub.stages
    && next.outClosed == sub.outClosed && next.finished == sub.finished
  }

  function EmissionChoice(v: View, n: nat): EmitAct
    requires n < |v.sub.stages| == |v.sub.deliveries|
  {
    match v.sub.stages[n]
    case Decoding => if v.sub.deliveries[n].id in v.log.undecodable then Hook(false, false) else Decode
    case HookAcking => HookXack(false)
    case Dropping => Drop
    case _ => Unsend
  }

  /** An emission that does not send leaves the messages what they have to do. */
  lemma EmissionLeavesMessages(env: Env, v: View, who: Loop, e: EmitAct)
    requires EmitEnabled(env, v, who, e) && !e.Send?
    ensures var next := EmitStep(env, v, who, e).sub;
            && |next.deliveries| == |next.stages| == |v.sub.stages|
            && MessagesRank(next.deliveries, next.stages) == MessagesRank(v.sub.deliveries, v.sub.stages)
  {
    var n, next := Current(v.sub, who).value, EmitStep(env, v, who, e).sub;
    MessagesUpdate(v.sub.deliveries, v.sub.stages, n, next.deliveries[n], next.stages[n]);
  }

  lemma EmissionShortens(cfg: Config, env: Env, k: nat, v: View, who: Loop, e: EmitAct)
    requires LoopsOwn(v.sub) && EmitEnabled(env, v, who, e)
    ensures LoopsRank(EmitStep(env, v, who, e).sub) < LoopsRank(v.sub)
    ensures EmitStep(env, v, who, e).sub.outClosed == v.sub.outClosed && EmitStep(env, v, who, e).sub.finished == v.sub.finished
  {
    EmissionDescends(cfg, env, k, v, who, e);
    assert EmitStep(env, v, who, e).sub == Step(cfg, env, k, v, OfEmit(who, e)).sub;
  }

  lemma EmissionDrains(cfg: Config, env: Env, k: nat, v: View, who: Loop) returns (a: SubAct)
    requires env.Stopping() && LoopsOwn(v.sub) && Current(v.sub, who).Some?
    ensures Drains(cfg, env, k, v, a)
  {
    var n := Current(v.sub, who).value;
    var e := EmissionChoice(v, n);
    assert v.sub.stages[n] in LOOP_STAGES;
    a := OfEmit(who, e);
    EmissionLeavesMessages(env, v, who, e);
    EmissionShortens(cfg, env, k, v, who, e);
    assert Step(cfg, env, k, v, a).sub == EmitStep(env, v, who, e).sub;
  }

  function ReadChoice(sub: Sub): ReadAct {
    match sub.reader
    case RAcquire => ReadHalt
    case RRead => ReadNothing(Other)
    case RRelease(_) => ReadRelease
    case RRecreate => ReadRecreate(false)
    case _ => ReadResume
  }

  lemma ReadShortens(cfg: Config, env: Env, k: nat, v: View)
    requires env.Stopping() && !v.sub.reader.RDone? && !v.sub.reader.REmit?
    ensures ReadEnabled(cfg, env, v, ReadChoice(v.sub))
    ensures LoopsMoved(v.sub, ReadStep(cfg, env, k, v, ReadChoice(v.sub)).sub)
  {
  }

  lemma ReaderDrains(cfg: Config, env: Env, k: nat, v: View) returns (a: SubAct)
    requires env.Stopping() && LoopsOwn(v.sub) && !v.sub.reader.RDone?
    ensures Drains(cfg, env, k, v, a)
  {
    if v.sub.reader.REmit? {
      a := EmissionDrains(cfg, env, k, v, ReadLoop);
    } else {
      ReadShortens(cfg, env, k, v);
      a := OfReader(ReadChoice(v.sub));
      assert Step(cfg, env, k, v, a) == ReadStep(cfg, env, k, v, ReadChoice(v.sub));
    }
  }

  function ClaimChoice(sub: Sub): ClaimAct {
    match sub.claimer
    case CTick => ClaimHalt
    case CScan => ClaimScanFailed(Other)
    case CSweep(todo) => if todo == [] then ClaimResume else ClaimHalt
    case CClaim(_) => ClaimNothing(Other)
    case CRelease(_, _) => ClaimRelease
    case CRecreate(_) => ClaimRecreate(false)
    case _ => ClaimResume
  }

  lemma ClaimShortens(cfg: Config, env: Env, k: nat, v: View)
    requires env.Stopping() && LoopsOwn(v.sub) && !v.sub.claimer.CDone? && !v.sub.claimer.CEmit?
    ensures ClaimEnabled(cfg, env, v, ClaimChoice(v.sub))
    ensures LoopsMoved(v.sub, ClaimStep(cfg, env, k, v, ClaimChoice(v.sub)).sub)
  {
  }

  lemma ClaimerDrains(cfg: Config, env: Env, k: nat, v: View) returns (a: SubAct)
    requires env.Stopping() && LoopsOwn(v.sub) && !v.sub.claimer.CDone?
    ensures Drains(cfg, env, k, v, a)
  {
    if v.sub.claimer.CEmit? {
      a := EmissionDrains(cfg, env, k, v, ClaimLoop);
    } else {
      ClaimShortens(cfg, env, k, v);
      a := OfClaimer(ClaimChoice(v.sub));
      assert Step(cfg, env, k, v, a) == ClaimStep(cfg, env, k, v, ClaimChoice(v.sub));
    }
  }

  function MessageChoice(d: Delivery, stage: Stage): MsgAct {
    match stage
    case Acking => Xack(false)
    case Unwinding => Unwind
    case Leaving => Leave
    case _ =>
      match d.run
      case Idle => RouterNack
      case Running(_, letter) => if letter.NoLetter? then PublishLetter(false, false) else Return(letter.Accepted?)
      case Returned(acked) => if acked then SeeAck else SeeNack
  }

  lemma MessageShortens(cfg: Config, env: Env, d: Delivery, stage: Stage)
    requires env.Stopping() && stage in WAITER_STAGES
    ensures var m := MessageChoice(d, stage);
            && (DispatchEnabled(cfg, env, d, m) || WaiterEnabled(env, d, stage, m))
            && MessageRank(MsgDelivery(cfg, d, m), MsgStage(d, stage, m)) < MessageRank(d, stage)
  {
  }

  lemma MessageDrains(cfg: Config, env: Env, k: nat, v: View, n: nat) returns (a: SubAct)
    requires env.Stopping() && LoopsOwn(v.sub) && n < |v.sub.deliveries| && v.sub.stages[n] in WAITER_STAGES
    requires v.sub.deliveries[n].grant < |v.log.grants| == |v.log.calls|
    ensures Drains(cfg, env, k, v, a)
  {
    var d, stage := v.sub.deliveries[n], v.sub.stages[n];
    var m := MessageChoice(d, stage);
    MessageShortens(cfg, env, d, stage);
    a := OfMessage(n, m);
    MessageLeavesLoops(cfg, env, k, v, n, m);
    MessagesUpdate(v.sub.deliveries, v.sub.stages, n, MsgDelivery(cfg, d, m), MsgStage(d, stage, m));
    assert Step(cfg, env, k, v, a).sub == MsgStep(cfg, env, v, n, m).sub;
  }

  /** The subscription has ended and its waiters are gone. */
  predicate Over(sub: Sub) {
    sub.finished && forall n :: 0 <= n < |sub.stages| ==> sub.stages[n] !in WAITER_STAGES
  }

  lemma SomethingDrains(cfg: Config, env: Env, k: nat, v: View) returns (a: SubAct)
    requires Ready(cfg, env.closing, k, v) && env.Stopping() && !Over(v.sub)
    ensures Drains(cfg, env, k, v, a)
  {
    if !v.sub.reader.RDone? {
      a := ReaderDrains(cfg, env, k, v);
    } else if !v.sub.claimer.CDone? {
      a := ClaimerDrains(cfg, env, k, v);
    } else if !v.sub.finished {
      a := OfEnd(if v.sub.outClosed then Finish else CloseOut);
    } else {
      var n :| 0 <= n < |v.sub.stages| && v.sub.stages[n] in WAITER_STAGES;
      assert Granted(cfg, v.log, k, v.sub.deliveries[n]);
      a := MessageDrains(cfg, env, k, v, n);
    }
  }

  // ----- all the way -----

  lemma {:induction false} DrainsOut(cfg: Config, env: Env, k: nat, v: View) returns (acts: seq<SubAct>)
    requires Ready(cfg, env.closing, k, v) && env.Stopping()
    ensures var end := Play(cfg, env, k, v, acts);
            end.Some? && Over(end.value.sub) && Ready(cfg, env.closing, k, end.value)
    decreases DrainRank(v.sub)
  {
    acts := [];
    if !Over(v.sub) {
      var a := SomethingDrains(cfg, env, k, v);
      StepAdvances(cfg, env, k, v, a);
      var rest := DrainsOut(cfg, env, k, Step(cfg, env, k, v, a));
      PlayOne(cfg, env, k, v, a, rest);
      acts := [a] + rest;
    }
  }

  /** In every reachable state of a process that is closing, or whose ctx is cancelled, and is not crashed: a subscription
      can finish by steps of its own goroutines and of the router alone, and then its semaphore is empty. */
  lemma StoppingCanFinish(cfg: Config, states: seq<State>, acts: seq<Act>, i: nat, k: nat) returns (path: seq<SubAct>)
    requires IsRun(cfg, states, acts) && i < |states| && Live(states[i], k) && IsStopping(states[i], k)
    ensures var end := Play(cfg, EnvOf(states[i], k), k, ViewOf(states[i], k), path);
            && end.Some? && Over(end.value.sub) && end.value.sub.sem == 0
            && end.value.sub.reader.RDone? && end.value.sub.claimer.CDone? && end.value.sub.outClosed
  {
    Reachable(cfg, states, acts, i);
    var st := states[i];
    assert SubOk(cfg, st, k) && LogInv(cfg, st.logs[st.subs[k].log]);
    OutstandingAtLeast(st.subs, k);
    path := DrainsOut(cfg, EnvOf(st, k), k, ViewOf(st, k));
    EmptyWhenOver(cfg, Play(cfg, EnvOf(st, k), k, ViewOf(st, k), path).value.sub);
  }

  /** The act ends process `x`: its Close begins, or its ctx is cancelled. */
  predicate Stops(a: Act, x: nat) {
    a == BeginClose(x) || a == CancelCtx(x)
  }

  lemma ProcessGoesOn(cfg: Config, st: State, a: Act, next: State, x: nat)
    requires Follows(cfg, st, a, next) && x < |st.insts|
    ensures x < |next.insts|
    ensures next.insts[x].closing == (st.insts[x].closing || a == BeginClose(x))
    ensures next.insts[x].cancelled == (st.insts[x].cancelled || a == CancelCtx(x))
    ensures next.insts[x].crashed == (st.insts[x].crashed || a == Crash(x))
  {
  }

  /** A process that has been stopped stays so, and nothing else stops it: after Close or a cancelled ctx each of its
      subscriptions is stopping for good. */
  lemma {:induction false} StoppedByItsActs(cfg: Config, states: seq<State>, acts: seq<Act>, i: nat, j: nat, x: nat)
    requires IsRun(cfg, states, acts) && i <= j < |states| && x < |states[i].insts|
    ensures x < |states[j].insts|
    ensures states[j].insts[x].closing || states[j].insts[x].cancelled <==>
              states[i].insts[x].closing || states[i].insts[x].cancelled || exists m :: i <= m < j && Stops(acts[m], x)
    decreases j
  {
    if i < j {
      StoppedByItsActs(cfg, states, acts, i, j - 1, x);
      assert StepAt(cfg, states, acts, j - 1);
      ProcessGoesOn(cfg, states[j - 1], acts[j - 1], states[j], x);
    }
  }

  /** A crashed process does nothing any more: its subscriptions are frozen, and what they held is reclaimed by others. */
  lemma {:induction false} CrashFreezes(cfg: Config, states: seq<State>, acts: seq<Act>, i: nat, j: nat, k: nat)
    requires IsRun(cfg, states, acts) && i < j < |states| && k < |states[i].subs| && acts[i] == Crash(states[i].subs[k].inst)
    ensures k < |states[j].subs| && states[j].subs[k] == states[i].subs[k] && !Live(states[j], k)
    decreases j
  {
    assert StepAt(cfg, states, acts, j - 1);
    HomeBefore(cfg, states[i], acts[i], states[i + 1], k) by {
      assert StepAt(cfg, states, acts, i);
    }
    if i < j - 1 {
      CrashFreezes(cfg, states, acts, i, j - 1, k);
      HomeBefore(cfg, states[j - 1], acts[j - 1], states[j], k);
    }
    Reachable(cfg, states, acts, j - 1);
    assert SubOk(cfg, states[j - 1], k);
    ProcessGoesOn(cfg, states[j - 1], acts[j - 1], states[j], states[j - 1].subs[k].inst);
  }

  lemma EmptyWhenOver(cfg: Config, sub: Sub)
    requires Over(sub) && Controlled(cfg, sub)
    ensures sub.sem == 0 && sub.reader.RDone? && sub.claimer.CDone? && sub.outClosed
  {
    NoSlots(sub.stages);
  }

  lemma {:induction false} NoSlots(stages: seq<Stage>)
    requires forall n :: 0 <= n < |stages| ==> stages[n] !in WAITER_STAGES
    ensures Count(stages, SLOT_STAGES) == 0
  {
    if stages != [] {
      NoSlots(stages[..|stages| - 1]);
    }
  }
}
