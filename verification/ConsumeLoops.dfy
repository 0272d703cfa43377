/** How the two loops of a subscription go round: every round ends, at the top of the loop unless the subscriber is
    stopping, and a loop, a message or a waiter gives up for no other reason. */
module ConsumeLoops {
  import opened RedisStream
  import opened Subscriber
  import opened SubscriberInvariant
  import opened ConsumeSystem
  import opened ConsumeSafety
  import opened ConsumeStamps

  // ----- rounds end -----

  /** Steps an emission still takes at most. */
  function EmitRank(stage: Stage): nat {
    match stage
    case Decoding => 3
    case HookAcking => 2
    case _ => 1
  }

  /** Steps the read loop takes at most until it is back at its top or out. */
  function ReadRank(sub: Sub): nat {
    match sub.reader
    case RRead => 4
    case RRelease(_) => 3
    case RRecreate => 2
    case RPause => 1
    case REmit(n) => if n < |sub.stages| then EmitRank(sub.stages[n]) else 0
    case _ => 0
  }

  /** The same for the claim loop: eight steps per line left, and a scan brings at most CLAIM_BATCH lines. */
  function ClaimRank(sub: Sub): nat {
    match sub.claimer
    case CScan => 8 * CLAIM_BATCH + 4
    case CSweep(todo) => 8 * |todo| + 3
    case CClaim(todo) => 8 * |todo| + 2
    case CRelease(todo, _) => 8 * |todo| + 4
    case CEmit(n, todo) => 8 * |todo| + 4 + (if n < |sub.stages| then EmitRank(sub.stages[n]) else 0)
    case CRecreate(_) => 2
    case CPause => 1
    case _ => 0
  }

  predicate StepOfReader(a: SubAct) {
    a.OfReader? || (a.OfEmit? && a.who.ReadLoop?)
  }

  predicate StepOfClaimer(a: SubAct) {
    a.OfClaimer? || (a.OfEmit? && a.who.ClaimLoop?)
  }

  lemma EmissionDescends(cfg: Config, env: Env, k: nat, v: View, who: Loop, e: EmitAct)
    requires LoopsOwn(v.sub) && EmitEnabled(env, v, who, e)
    ensures var next := Step(cfg, env, k, v, OfEmit(who, e)).sub;
            && (who.ReadLoop? ==> ReadRank(next) < ReadRank(v.sub) && ClaimRank(next) == ClaimRank(v.sub))
            && (who.ClaimLoop? ==> ClaimRank(next) < ClaimRank(v.sub) && ReadRank(next) == ReadRank(v.sub))
  {
    assert EmitStep(env, v, who, e).sub == Step(cfg, env, k, v, OfEmit(who, e)).sub;
  }

  lemma MessageLeavesLoops(cfg: Config, env: Env, k: nat, v: View, n: nat, m: MsgAct)
    requires LoopsOwn(v.sub) && MsgEnabled(cfg, env, v, n, m)
    ensures var next := Step(cfg, env, k, v, OfMessage(n, m)).sub;
            && next.reader == v.sub.reader && next.claimer == v.sub.claimer
            && ReadRank(next) == ReadRank(v.sub) && ClaimRank(next) == ClaimRank(v.sub)
  {
    assert v.sub.stages[n] !in LOOP_STAGES;
  }

  lemma ReadDescends(cfg: Config, env: Env, k: nat, v: View, r: ReadAct)
    requires LoopsOwn(v.sub) && ReadEnabled(cfg, env, v, r)
    ensures var next := Step(cfg, env, k, v, OfReader(r)).sub;
            && ReadRank(next) <= 4 && ClaimRank(next) == ClaimRank(v.sub)
            && (!v.sub.reader.RAcquire? ==> ReadRank(next) < ReadRank(v.sub))
  {
  }

  lemma ClaimDescends(cfg: Config, env: Env, k: nat, v: View, c: ClaimAct)
    requires LoopsOwn(v.sub) && ClaimEnabled(cfg, env, v, c)
    ensures var next := Step(cfg, env, k, v, OfClaimer(c)).sub;
            && ReadRank(next) == ReadRank(v.sub)
            && (if v.sub.claimer.CTick? then ClaimRank(next) <= 8 * CLAIM_BATCH + 4 else ClaimRank(next) < ClaimRank(v.sub))
  {
  }

  /** Whatever the server answers, each step a loop takes away from its top brings it nearer to it, and no other step
      of the subscription moves it: a round of the read loop takes at most five steps, a sweep at most 805. */
  lemma RoundsEnd(cfg: Config, env: Env, k: nat, v: View, a: SubAct)
    requires LoopsOwn(v.sub) && Enabled(cfg, env, v, a)
    ensures var next := Step(cfg, env, k, v, a).sub;
            && (if StepOfReader(a) then if v.sub.reader.RAcquire? then ReadRank(next) <= 4 else ReadRank(next) < ReadRank(v.sub)
                else ReadRank(next) == ReadRank(v.sub))
            && (if StepOfClaimer(a) then
                  if v.sub.claimer.CTick? then ClaimRank(next) <= 8 * CLAIM_BATCH + 4 else ClaimRank(next) < ClaimRank(v.sub)
                else ClaimRank(next) == ClaimRank(v.sub))
  {
    match a
    case OfReader(r) => ReadDescends(cfg, env, k, v, r);
    case OfClaimer(c) => ClaimDescends(cfg, env, k, v, c);
    case OfEmit(who, e) => EmissionDescends(cfg, env, k, v, who, e);
    case OfMessage(n, m) => MessageLeavesLoops(cfg, env, k, v, n, m);
    case OfEnd(z) =>
  }

  // ----- what ends for good, ends because of a stop -----

  /** The delivery was dropped as undecodable only, nacked only after its dispatch began, and its waiter left only after
      the verdict. */
  predicate GoesItsWay(bad: set<nat>, d: Delivery, stage: Stage) {
    && (stage in {HookAcking, Dropping, Dropped} ==> d.id in bad)
    && (d.run.Returned? ==> d.begun)
    && (stage in {Unwinding, Leaving, Gone} ==> d.run.Returned?)
  }

  /** Nothing of the subscription has given up: neither loop has left, and every delivery goes its way. */
  predicate CarriesOn(bad: set<nat>, claims: bool, sub: Sub) {
    && !sub.reader.RDone? && (claims ==> !sub.claimer.CDone?) && |sub.stages| == |sub.deliveries|
    && forall n :: 0 <= n < |sub.deliveries| ==> GoesItsWay(bad, sub.deliveries[n], sub.stages[n])
  }

  lemma LoopsCarryOn(cfg: Config, env: Env, k: nat, v: View, a: SubAct, claims: bool)
    requires Enabled(cfg, env, v, a) && !env.Stopping() && CarriesOn(v.log.undecodable, claims, v.sub)
    ensures var next := Step(cfg, env, k, v, a).sub;
            !next.reader.RDone? && (claims ==> !next.claimer.CDone?) && |next.stages| == |next.deliveries|
  {
  }

  lemma MessageGoesItsWay(cfg: Config, env: Env, bad: set<nat>, d: Delivery, stage: Stage, m: MsgAct)
    requires !env.Stopping() && Sent(stage) && GoesItsWay(bad, d, stage)
    requires (d.run.Running? ==> d.begun) && (stage.Acking? ==> d.run.Returned?)
    requires DispatchEnabled(cfg, env, d, m) || WaiterEnabled(env, d, stage, m)
    ensures GoesItsWay(bad, MsgDelivery(cfg, d, m), MsgStage(d, stage, m))
  {
  }

  lemma EmissionGoesItsWay(env: Env, v: View, who: Loop, e: EmitAct)
    requires EmitEnabled(env, v, who, e) && !env.Stopping()
    requires var n := Current(v.sub, who).value;
             GoesItsWay(v.log.undecodable, v.sub.deliveries[n], v.sub.stages[n]) && v.sub.deliveries[n].run.Idle?
    ensures var n, next := Current(v.sub, who).value, EmitStep(env, v, who, e).sub;
            GoesItsWay(v.log.undecodable, next.deliveries[n], next.stages[n])
  {
  }

  lemma DeliveriesCarryOn(cfg: Config, env: Env, k: nat, v: View, a: SubAct, claims: bool, n: nat)
    requires Ready(cfg, env.closing, k, v) && Enabled(cfg, env, v, a) && !env.Stopping()
    requires CarriesOn(v.log.undecodable, claims, v.sub)
    requires n < |Step(cfg, env, k, v, a).sub.deliveries|
    ensures var next := Step(cfg, env, k, v, a).sub;
            n < |next.stages| && GoesItsWay(v.log.undecodable, next.deliveries[n], next.stages[n])
  {
    if n < |v.sub.deliveries| {
      assert Kept(cfg, env.closing, v.log, k, v.sub.deliveries[n], v.sub.stages[n]);
      assert GoesItsWay(v.log.undecodable, v.sub.deliveries[n], v.sub.stages[n]);
    }
    match a
    case OfReader(r) => assert ReadStep(cfg, env, k, v, r).sub == Step(cfg, env, k, v, a).sub;
    case OfClaimer(c) => assert ClaimStep(cfg, env, k, v, c).sub == Step(cfg, env, k, v, a).sub;
    case OfEmit(who, e) =>
      if Current(v.sub, who).value == n {
        EmissionGoesItsWay(env, v, who, e);
      }
    case OfEnd(z) =>
    case OfMessage(i, m) =>
      if i == n {
        MessageGoesItsWay(cfg, env, v.log.undecodable, v.sub.deliveries[n], v.sub.stages[n], m);
      }
  }

  lemma UndecodableSame(cfg: Config, env: Env, k: nat, v: View, a: SubAct)
    requires Enabled(cfg, env, v, a)
    ensures Step(cfg, env, k, v, a).log.undecodable == v.log.undecodable
  {
  }

  /** What others do leaves every delivery on its way. */
  lemma CarriesOnBeside(cfg: Config, closing: bool, log: Log, next: Log, actor: int, k: nat, sub: Sub, claims: bool)
    requires LogInv(cfg, log) && SubInv(cfg, closing, log, k, sub) && Extends(log, next, actor)
    requires CarriesOn(log.undecodable, claims, sub)
    ensures CarriesOn(next.undecodable, claims, sub)
  {
    forall n | 0 <= n < |sub.deliveries| ensures GoesItsWay(next.undecodable, sub.deliveries[n], sub.stages[n]) {
      assert Kept(cfg, closing, log, k, sub.deliveries[n], sub.stages[n]);
      assert GoesItsWay(log.undecodable, sub.deliveries[n], sub.stages[n]);
    }
  }

  lemma CarriesOnStep(cfg: Config, env: Env, k: nat, v: View, a: SubAct, claims: bool)
    requires Ready(cfg, env.closing, k, v) && Enabled(cfg, env, v, a) && !env.Stopping()
    requires CarriesOn(v.log.undecodable, claims, v.sub)
    ensures CarriesOn(Step(cfg, env, k, v, a).log.undecodable, claims, Step(cfg, env, k, v, a).sub)
  {
    var next := Step(cfg, env, k, v, a);
    UndecodableSame(cfg, env, k, v, a);
    LoopsCarryOn(cfg, env, k, v, a, claims);
    forall n | 0 <= n < |next.sub.deliveries|
      ensures GoesItsWay(next.log.undecodable, next.sub.deliveries[n], next.sub.stages[n])
    {
      DeliveriesCarryOn(cfg, env, k, v, a, claims, n);
    }
  }

  predicate IsStopping(st: State, k: nat) {
    k < |st.subs| && st.subs[k].inst < |st.insts|
    && (st.insts[st.subs[k].inst].closing || st.insts[st.subs[k].inst].cancelled)
  }

  lemma StopsPersist(cfg: Config, st: State, a: Act, next: State, k: nat)
    requires Follows(cfg, st, a, next) && k < |st.subs| && st.subs[k].inst < |st.insts|
    ensures k < |next.subs| && next.subs[k].log == st.subs[k].log && |next.logs| == |st.logs|
    ensures IsStopping(st, k) ==> IsStopping(next, k)
  {
    HomeBefore(cfg, st, a, next, k);
  }

  lemma CarriesOnNext(cfg: Config, st: State, a: Act, next: State, k: nat, claims: bool)
    requires SysInv(cfg, st) && SubOk(cfg, st, k) && Follows(cfg, st, a, next) && !IsStopping(st, k)
    requires CarriesOn(st.logs[st.subs[k].log].undecodable, claims, st.subs[k])
    ensures k < |next.subs| && next.subs[k].log < |next.logs|
    ensures CarriesOn(next.logs[next.subs[k].log].undecodable, claims, next.subs[k])
  {
    var t := st.subs[k].log;
    HomeBefore(cfg, st, a, next, k);
    if a.Local? && a.k == k {
      OutstandingAtLeast(st.subs, k);
      CarriesOnStep(cfg, EnvOf(st, k), k, ViewOf(st, k), a.a, claims);
    } else {
      StepExtends(cfg, st, a, t);
      var actor :| Extends(st.logs[t], next.logs[t], actor);
      CarriesOnBeside(cfg, st.insts[st.subs[k].inst].closing, st.logs[t], next.logs[t], actor, k, st.subs[k], claims);
    }
  }

  /** Over every run, until its process closes or its ctx is cancelled: the read loop of a subscription has not left, nor
      has its claim loop if it was started with one; no decodable message is dropped, no message is nacked without having
      been dispatched, and no waiter leaves before the verdict. */
  lemma {:induction false} RunsUntilStopped(cfg: Config, states: seq<State>, acts: seq<Act>, j: nat, i: nat, k: nat)
    requires IsRun(cfg, states, acts) && j < i < |states| && acts[j].Subscribe? && k == |states[j].subs|
    requires !IsStopping(states[i], k)
    ensures k < |states[i].subs| && states[i].subs[k].log < |states[i].logs|
    ensures CarriesOn(states[i].logs[states[i].subs[k].log].undecodable, acts[j].claims, states[i].subs[k])
    decreases i
  {
    assert StepAt(cfg, states, acts, i - 1);
    if j < i - 1 {
      KeptOn(cfg, states, acts, j, i - 1, k);
      StopsPersist(cfg, states[i - 1], acts[i - 1], states[i], k);
      RunsUntilStopped(cfg, states, acts, j, i - 1, k);
      Reachable(cfg, states, acts, i - 1);
      CarriesOnNext(cfg, states[i - 1], acts[i - 1], states[i], k, acts[j].claims);
    }
  }

  lemma {:induction false} KeptOn(cfg: Config, states: seq<State>, acts: seq<Act>, j: nat, i: nat, k: nat)
    requires IsRun(cfg, states, acts) && j < i < |states| && acts[j].Subscribe? && k == |states[j].subs|
    ensures k < |states[i].subs| && SubOk(cfg, states[i], k)
    decreases i
  {
    assert StepAt(cfg, states, acts, i - 1);
    if j < i - 1 {
      KeptOn(cfg, states, acts, j, i - 1, k);
      HomeBefore(cfg, states[i - 1], acts[i - 1], states[i], k);
    }
    Reachable(cfg, states, acts, i);
    assert SubOk(cfg, states[i], k);
  }
}
