/** Poison termination: a subscription whose DLQ writes and XACKs succeed dispatches an entry that keeps failing at most
    MaxDeliveryAttempts + Concurrency times, however slow its handlers and whatever the other instances do, and takes
    it off the pending list. */
module ConsumePoison {
  import opened Basics
  import opened RedisStream
  import opened Subscriber
  import opened SubscriberInvariant
  import opened ConsumeSystem
  import opened ConsumeTiming
  import opened ConsumeSafety
  import opened ConsumeStamps

  /** Action `j` is not a failed dead letter or XACK of subscription `k`. */
  predicate Diligent(acts: seq<Act>, j: nat, k: nat) {
    j < |acts| && (acts[j].Local? && acts[j].k == k ==> CleanStep(acts[j].a))
  }

  predicate CleanStep(a: SubAct) {
    match a
    case OfEmit(_, Hook(accepted, _)) => accepted
    case OfEmit(_, HookXack(reached)) => reached
    case OfMessage(_, PublishLetter(accepted, _)) => accepted
    case OfMessage(_, Xack(reached)) => reached
    case _ => true
  }

  /** The entry is behind the group's position and off its pending list. */
  ghost predicate OffPending(log: Log, id: nat) {
    log.group.Some? ==> id <= log.group.value.last && id !in log.group.value.pel
  }

  /** An XACK took the entry off the pending list; an undecodable entry is acknowledged once its loop is
      done with it; an over-cap dispatch that has returned was acknowledged. */
  ghost predicate CleanDelivery(cfg: Config, log: Log, d: Delivery, stage: Stage) {
    && (d.tried ==> OffPending(log, d.id))
    && (d.run.Running? ==> !d.run.letter.Refused?)
    && (d.begun && d.run.Returned? && cfg.cap < d.attempt ==> d.run == Returned(true))
    && (d.id in log.undecodable ==> stage in {Decoding, HookAcking, Dropping, Dropped})
    && (d.id in log.undecodable && stage in {Dropping, Dropped} ==> d.tried)
  }

  ghost predicate CleanSub(cfg: Config, log: Log, sub: Sub) {
    |sub.stages| == |sub.deliveries| &&
    forall n :: 0 <= n < |sub.deliveries| ==> CleanDelivery(cfg, log, sub.deliveries[n], sub.stages[n])
  }

  lemma OffPendingStays(log: Log, next: Log, actor: int, id: nat)
    requires Extends(log, next, actor) && next.losses == log.losses
    requires log.group.Some? && OffPending(log, id)
    ensures OffPending(next, id)
  {
  }

  /** A group that was never lost and has delivered something is there. */
  lemma GroupPresent(cfg: Config, log: Log, k: nat, d: Delivery)
    requires LogInv(cfg, log) && log.losses == 0 && Granted(cfg, log, k, d)
    ensures log.group.Some? && d.id <= log.group.value.last && d.id < log.nextId
  {
  }

  lemma CleanStable(cfg: Config, log: Log, next: Log, actor: int, k: nat, d: Delivery, stage: Stage)
    requires LogInv(cfg, log) && log.losses == 0 && next.losses == 0 && Extends(log, next, actor)
    requires Granted(cfg, log, k, d) && CleanDelivery(cfg, log, d, stage)
    ensures CleanDelivery(cfg, next, d, stage)
  {
    GroupPresent(cfg, log, k, d);
    if d.tried {
      OffPendingStays(log, next, actor, d.id);
    }
  }

  lemma CleanMessage(cfg: Config, env: Env, k: nat, v: View, n: nat, a: MsgAct)
    requires LogInv(cfg, v.log) && v.log.losses == 0 && MsgEnabled(cfg, env, v, n, a)
    requires Granted(cfg, v.log, k, v.sub.deliveries[n])
    requires Drained(env.closing, v.sub.deliveries[n], v.sub.stages[n])
    requires CleanDelivery(cfg, v.log, v.sub.deliveries[n], v.sub.stages[n]) && CleanStep(OfMessage(n, a))
    ensures var next := MsgStep(cfg, env, v, n, a);
            CleanDelivery(cfg, next.log, next.sub.deliveries[n], next.sub.stages[n])
  {
    GroupPresent(cfg, v.log, k, v.sub.deliveries[n]);
  }

  lemma CleanEmission(cfg: Config, env: Env, k: nat, v: View, who: Loop, a: EmitAct)
    requires LogInv(cfg, v.log) && v.log.losses == 0 && EmitEnabled(env, v, who, a) && CleanStep(OfEmit(who, a))
    requires var n := Current(v.sub, who).value;
             && Granted(cfg, v.log, k, v.sub.deliveries[n])
             && Drained(env.closing, v.sub.deliveries[n], v.sub.stages[n])
             && CleanDelivery(cfg, v.log, v.sub.deliveries[n], v.sub.stages[n])
    ensures var n, next := Current(v.sub, who).value, EmitStep(env, v, who, a);
            CleanDelivery(cfg, next.log, next.sub.deliveries[n], next.sub.stages[n])
  {
    GroupPresent(cfg, v.log, k, v.sub.deliveries[Current(v.sub, who).value]);
  }

  /** The delivery a step acts on, if any. */
  function Target(sub: Sub, a: SubAct): Option<nat> {
    match a
    case OfMessage(n, _) => Some(n)
    case OfEmit(who, _) => Current(sub, who)
    case _ => None
  }

  lemma OnlyTargetChanges(cfg: Config, env: Env, k: nat, v: View, a: SubAct, n: nat)
    requires Enabled(cfg, env, v, a) && |v.sub.stages| == |v.sub.deliveries| && n < |v.sub.deliveries|
    requires Target(v.sub, a) != Some(n)
    ensures var next := Step(cfg, env, k, v, a).sub;
            && n < |next.deliveries| == |next.stages|
            && next.deliveries[n] == v.sub.deliveries[n] && next.stages[n] == v.sub.stages[n]
  {
    match a
    case OfReader(r) => assert ReadStep(cfg, env, k, v, r).sub == Step(cfg, env, k, v, a).sub;
    case OfClaimer(c) => assert ClaimStep(cfg, env, k, v, c).sub == Step(cfg, env, k, v, a).sub;
    case OfEmit(who, e) => assert EmitStep(env, v, who, e).sub == Step(cfg, env, k, v, a).sub;
    case OfEnd(z) =>
    case OfMessage(i, b) =>
  }

  lemma NewIsClean(cfg: Config, env: Env, k: nat, v: View, a: SubAct, n: nat)
    requires Enabled(cfg, env, v, a) && |v.sub.stages| == |v.sub.deliveries|
    requires |v.sub.deliveries| <= n < |Step(cfg, env, k, v, a).sub.deliveries|
    ensures var next := Step(cfg, env, k, v, a);
            && |next.sub.stages| == |next.sub.deliveries|
            && CleanDelivery(cfg, next.log, next.sub.deliveries[n], next.sub.stages[n])
            && !next.sub.deliveries[n].begun
  {
    match a
    case OfReader(r) => assert ReadStep(cfg, env, k, v, r).sub == Step(cfg, env, k, v, a).sub;
    case OfClaimer(c) => assert ClaimStep(cfg, env, k, v, c).sub == Step(cfg, env, k, v, a).sub;
    case OfEmit(who, e) =>
    case OfEnd(z) =>
    case OfMessage(i, b) =>
  }

  lemma LocalKeepsClean(cfg: Config, env: Env, k: nat, v: View, a: SubAct)
    requires Ready(cfg, env.closing, k, v) && Enabled(cfg, env, v, a) && CleanStep(a)
    requires v.log.losses == 0 && CleanSub(cfg, v.log, v.sub)
    ensures CleanSub(cfg, Step(cfg, env, k, v, a).log, Step(cfg, env, k, v, a).sub)
  {
    var next := Step(cfg, env, k, v, a);
    StepAdvances(cfg, env, k, v, a);
    LossesUnmoved(cfg, env, k, v, a);
    forall n | 0 <= n < |next.sub.deliveries|
      ensures |next.sub.stages| == |next.sub.deliveries|
      ensures CleanDelivery(cfg, next.log, next.sub.deliveries[n], next.sub.stages[n])
    {
      if n >= |v.sub.deliveries| {
        NewIsClean(cfg, env, k, v, a, n);
      } else {
        assert Kept(cfg, env.closing, v.log, k, v.sub.deliveries[n], v.sub.stages[n]);
        if Target(v.sub, a) != Some(n) {
          OnlyTargetChanges(cfg, env, k, v, a, n);
          CleanStable(cfg, v.log, next.log, k, k, v.sub.deliveries[n], v.sub.stages[n]);
        } else if a.OfMessage? {
          CleanMessage(cfg, env, k, v, n, a.m);
        } else {
          CleanEmission(cfg, env, k, v, a.who, a.e);
        }
      }
    }
  }

  lemma LossesUnmoved(cfg: Config, env: Env, k: nat, v: View, a: SubAct)
    requires Enabled(cfg, env, v, a)
    ensures Step(cfg, env, k, v, a).log.losses == v.log.losses
  {
  }

  /** The group is kept, the subscription's process is not closing, and its deliveries are clean. Other subscriptions,
      also of the same stream, may be in any state. */
  ghost predicate Steady(cfg: Config, st: State, k: nat) {
    && SysInv(cfg, st) && SubOk(cfg, st, k)
    && !st.insts[st.subs[k].inst].closing
    && st.logs[st.subs[k].log].losses == 0
    && CleanSub(cfg, st.logs[st.subs[k].log], st.subs[k])
  }

  lemma OthersStayClean(cfg: Config, st: State, next: Log, actor: int, k: nat)
    requires Steady(cfg, st, k) && next.losses == 0 && Extends(st.logs[st.subs[k].log], next, actor)
    ensures CleanSub(cfg, next, st.subs[k])
  {
    var log, sub := st.logs[st.subs[k].log], st.subs[k];
    forall n | 0 <= n < |sub.deliveries| ensures CleanDelivery(cfg, next, sub.deliveries[n], sub.stages[n]) {
      assert Granted(cfg, log, k, sub.deliveries[n]) && CleanDelivery(cfg, log, sub.deliveries[n], sub.stages[n]);
      CleanStable(cfg, log, next, actor, k, sub.deliveries[n], sub.stages[n]);
    }
  }

  lemma StepKeepsClean(cfg: Config, st: State, a: Act, next: State, k: nat)
    requires Steady(cfg, st, k) && Follows(cfg, st, a, next) && (a.Local? && a.k == k ==> CleanStep(a.a))
    requires |next.logs| == |st.logs| && next.logs[st.subs[k].log].losses == 0
    ensures k < |next.subs| && next.subs[k].log == st.subs[k].log && next.subs[k].inst == st.subs[k].inst
    ensures CleanSub(cfg, next.logs[st.subs[k].log], next.subs[k])
  {
    HomeBefore(cfg, st, a, next, k);
    if a.Local? && a.k == k {
      OutstandingAtLeast(st.subs, k);
      LocalKeepsClean(cfg, EnvOf(st, k), k, ViewOf(st, k), a.a);
    } else {
      StepExtends(cfg, st, a, st.subs[k].log);
      var actor :| Extends(st.logs[st.subs[k].log], next.logs[st.subs[k].log], actor);
      OthersStayClean(cfg, st, next.logs[st.subs[k].log], actor, k);
    }
  }

  // ----- runs -----

  /** Up to state `i` the group of subscription `k`'s stream is kept, `k`'s process does not begin to close, and `k`'s own
      dead letters and XACKs succeed. Any number of instances, which may crash, close and fail, any handler durations. */
  ghost predicate SteadyRun(cfg: Config, states: seq<State>, acts: seq<Act>, i: nat, k: nat) {
    && IsRun(cfg, states, acts) && i < |states| && k < |states[i].subs|
    && states[i].subs[k].log < |states[i].logs| && states[i].logs[states[i].subs[k].log].losses == 0
    && states[i].subs[k].inst < |states[i].insts| && !states[i].insts[states[i].subs[k].inst].closing
    && forall j: nat :: j < i ==> Diligent(acts, j, k)
  }

  /** In addition every delivery of the stream is timely. */
  ghost predicate CalmRun(cfg: Config, states: seq<State>, acts: seq<Act>, i: nat, k: nat) {
    && SteadyRun(cfg, states, acts, i, k)
    && forall j :: 0 <= j <= i ==> Timely(cfg, states[j], states[i].subs[k].log)
  }

  lemma StaysOpen(cfg: Config, st: State, a: Act, next: State, i: nat)
    requires Follows(cfg, st, a, next) && i < |st.insts|
    ensures i < |next.insts| && (st.insts[i].closing ==> next.insts[i].closing)
  {
  }

  lemma SteadyBefore(cfg: Config, states: seq<State>, acts: seq<Act>, i: nat, k: nat)
    requires SteadyRun(cfg, states, acts, i, k) && i > 0 && k < |states[i - 1].subs|
    ensures SteadyRun(cfg, states, acts, i - 1, k) && Diligent(acts, i - 1, k)
    ensures Follows(cfg, states[i - 1], acts[i - 1], states[i]) && |states[i].logs| == |states[i - 1].logs|
    ensures states[i].subs[k].log == states[i - 1].subs[k].log && states[i].subs[k].inst == states[i - 1].subs[k].inst
  {
    assert StepAt(cfg, states, acts, i - 1);
    Reachable(cfg, states, acts, i - 1);
    assert SubOk(cfg, states[i - 1], k);
    HomeBefore(cfg, states[i - 1], acts[i - 1], states[i], k);
    LossesGrow(cfg, states, acts, i - 1, i, states[i - 1].subs[k].log);
    StaysOpen(cfg, states[i - 1], acts[i - 1], states[i], states[i - 1].subs[k].inst);
  }

  /** A subscription that has just begun has received nothing. */
  lemma NewIsSteady(cfg: Config, states: seq<State>, acts: seq<Act>, i: nat, k: nat)
    requires SteadyRun(cfg, states, acts, i, k) && (i == 0 || |states[i - 1].subs| <= k)
    ensures Steady(cfg, states[i], k) && states[i].subs[k].deliveries == [] && states[i].subs[k].stages == []
  {
    Reachable(cfg, states, acts, i);
    assert states[0].subs == [];
    assert StepAt(cfg, states, acts, i - 1);
    assert SubOk(cfg, states[i], k);
  }

  lemma SteadyOn(cfg: Config, st: State, a: Act, next: State, k: nat)
    requires Steady(cfg, st, k) && Follows(cfg, st, a, next) && (a.Local? && a.k == k ==> CleanStep(a.a))
    requires SysInv(cfg, next) && k < |next.subs| && SubOk(cfg, next, k) && |next.logs| == |st.logs|
    requires next.subs[k].log == st.subs[k].log && next.logs[next.subs[k].log].losses == 0
    requires !next.insts[next.subs[k].inst].closing
    ensures Steady(cfg, next, k)
  {
    StepKeepsClean(cfg, st, a, next, k);
  }

  lemma {:induction false} RunStaysSteady(cfg: Config, states: seq<State>, acts: seq<Act>, i: nat, k: nat)
    requires SteadyRun(cfg, states, acts, i, k)
    ensures Steady(cfg, states[i], k)
  {
    if i == 0 || |states[i - 1].subs| <= k {
      NewIsSteady(cfg, states, acts, i, k);
    } else {
      SteadyBefore(cfg, states, acts, i, k);
      RunStaysSteady(cfg, states, acts, i - 1, k);
      Reachable(cfg, states, acts, i);
      assert SubOk(cfg, states[i], k);
      SteadyOn(cfg, states[i - 1], acts[i - 1], states[i], k);
    }
  }

  // ----- when deliveries are timely, an over-cap dispatch is the last delivery of its entry -----

  /** The delivery's dispatch began although its attempt exceeds the cap. */
  predicate Capped(cfg: Config, d: Delivery) {
    d.begun && cfg.cap < d.attempt
  }

  ghost predicate CappedIsLast(cfg: Config, sub: Sub) {
    forall m, n :: 0 <= m < n < |sub.deliveries| && sub.deliveries[m].id == sub.deliveries[n].id ==>
      !Capped(cfg, sub.deliveries[m])
  }

  /** Everything the hypotheses of a calm run give about one state. */
  ghost predicate Calm(cfg: Config, st: State, k: nat) {
    Steady(cfg, st, k) && Timely(cfg, st, st.subs[k].log) && BusyAreLatest(st, st.subs[k].log)
  }

  /** Once an over-cap dispatch has begun, the server grants the entry no further delivery. */
  lemma CappedStopsGrants(cfg: Config, st: State, k: nat, m: nat)
    requires Calm(cfg, st, k) && Live(st, k) && m < |st.subs[k].deliveries| && Capped(cfg, st.subs[k].deliveries[m])
    ensures var log, id := st.logs[st.subs[k].log], st.subs[k].deliveries[m].id;
            !IsNext(log, id) && !Claimable(log, st.now, cfg.minIdle, id)
  {
    var log, sub := st.logs[st.subs[k].log], st.subs[k];
    var d, stage := sub.deliveries[m], sub.stages[m];
    assert Kept(cfg, false, log, k, d, stage);
    GroupPresent(cfg, log, k, d);
    if Busy(d, stage) {
      assert BusyAt(st, k, m);
      NoGrantWhileBusy(cfg, st, sub.log, d.id, k, m);
    } else {
      assert CleanDelivery(cfg, log, d, stage);
    }
  }

  lemma NewDeliveryIsGranted(cfg: Config, st: State, k: nat, a: SubAct)
    requires SysInv(cfg, st) && ActEnabled(cfg, st, Local(k, a))
    ensures var v := ViewOf(st, k); var next := Step(cfg, EnvOf(st, k), k, v, a).sub;
            forall n :: |v.sub.deliveries| <= n < |next.deliveries| ==>
              IsNext(v.log, next.deliveries[n].id) || Claimable(v.log, st.now, cfg.minIdle, next.deliveries[n].id)
  {
  }

  /** A delivery in flight has no later delivery of its entry. */
  lemma BusyHasNoLater(cfg: Config, st: State, k: nat, m: nat)
    requires Calm(cfg, st, k) && BusyAt(st, k, m)
    ensures var ds := st.subs[k].deliveries; forall n :: m < n < |ds| ==> ds[n].id != ds[m].id
  {
    var ds, log := st.subs[k].deliveries, st.logs[st.subs[k].log];
    assert LatestGrant(log, ds[m].grant, ds[m].id);
    forall n | m < n < |ds| ensures ds[n].id != ds[m].id {
      assert Granted(cfg, log, k, ds[n]);
    }
  }

  lemma LocalKeepsCapped(cfg: Config, st: State, k: nat, a: SubAct)
    requires Calm(cfg, st, k) && ActEnabled(cfg, st, Local(k, a)) && CappedIsLast(cfg, st.subs[k])
    ensures CappedIsLast(cfg, Next(cfg, st, Local(k, a)).subs[k])
  {
    var v, next := ViewOf(st, k), Next(cfg, st, Local(k, a)).subs[k];
    NewDeliveryIsGranted(cfg, st, k, a);
    forall m, n | 0 <= m < n < |next.deliveries| && Capped(cfg, next.deliveries[m])
      ensures next.deliveries[m].id != next.deliveries[n].id
    {
      BeginsBusy(cfg, EnvOf(st, k), k, v, a, m);
      if v.sub.deliveries[m].begun {
        CappedStopsGrants(cfg, st, k, m);
      } else {
        BusyHasNoLater(cfg, st, k, m);
      }
      if n < |v.sub.deliveries| {
        BusyComesFrom(cfg, EnvOf(st, k), k, v, a, n);
      }
    }
  }

  /** A dispatch that begins in a step began on a message in flight, and the step receives nothing. */
  lemma BeginsBusy(cfg: Config, env: Env, k: nat, v: View, a: SubAct, m: nat)
    requires Enabled(cfg, env, v, a) && |v.sub.stages| == |v.sub.deliveries|
    requires m < |Step(cfg, env, k, v, a).sub.deliveries| && Step(cfg, env, k, v, a).sub.deliveries[m].begun
    ensures var next := Step(cfg, env, k, v, a).sub;
            && m < |v.sub.deliveries|
            && v.sub.deliveries[m].id == next.deliveries[m].id && v.sub.deliveries[m].attempt == next.deliveries[m].attempt
            && (!v.sub.deliveries[m].begun ==>
                 Busy(v.sub.deliveries[m], v.sub.stages[m]) && |next.deliveries| == |v.sub.deliveries|)
  {
    match a
    case OfReader(r) => assert ReadStep(cfg, env, k, v, r).sub == Step(cfg, env, k, v, a).sub;
    case OfClaimer(c) => assert ClaimStep(cfg, env, k, v, c).sub == Step(cfg, env, k, v, a).sub;
    case OfEmit(who, e) => assert EmitStep(env, v, who, e).sub == Step(cfg, env, k, v, a).sub;
    case OfEnd(z) =>
    case OfMessage(i, b) =>
  }

  lemma StepKeepsCapped(cfg: Config, st: State, a: Act, next: State, k: nat)
    requires Calm(cfg, st, k) && Follows(cfg, st, a, next) && CappedIsLast(cfg, st.subs[k])
    ensures k < |next.subs| && CappedIsLast(cfg, next.subs[k])
  {
    HomeBefore(cfg, st, a, next, k);
    if a.Local? && a.k == k {
      LocalKeepsCapped(cfg, st, k, a.a);
    }
  }

  lemma CalmAt(cfg: Config, states: seq<State>, acts: seq<Act>, i: nat, k: nat)
    requires CalmRun(cfg, states, acts, i, k)
    ensures Calm(cfg, states[i], k)
  {
    var t := states[i].subs[k].log;
    RunStaysSteady(cfg, states, acts, i, k);
    forall j | 0 <= j < i ensures t < |states[j].logs| && states[j].logs[t].losses == 0 {
      LogsConstant(cfg, states, acts, j, i);
      LossesGrow(cfg, states, acts, j, i, t);
    }
    LogsConstant(cfg, states, acts, 0, i);
    RunKeepsLatest(cfg, states, acts, i, t);
  }

  lemma {:induction false} LogsConstant(cfg: Config, states: seq<State>, acts: seq<Act>, i: nat, j: nat)
    requires IsRun(cfg, states, acts) && i <= j < |states|
    ensures |states[i].logs| == |states[j].logs|
    decreases j
  {
    if i < j {
      LogsConstant(cfg, states, acts, i, j - 1);
      assert StepAt(cfg, states, acts, j - 1);
    }
  }

  lemma {:induction false} RunStaysCalm(cfg: Config, states: seq<State>, acts: seq<Act>, i: nat, k: nat)
    requires CalmRun(cfg, states, acts, i, k)
    ensures CappedIsLast(cfg, states[i].subs[k])
  {
    if i == 0 || |states[i - 1].subs| <= k {
      NewIsSteady(cfg, states, acts, i, k);
    } else {
      SteadyBefore(cfg, states, acts, i, k);
      RunStaysCalm(cfg, states, acts, i - 1, k);
      CalmAt(cfg, states, acts, i - 1, k);
      StepKeepsCapped(cfg, states[i - 1], acts[i - 1], states[i], k);
    }
  }

  // ----- over-cap dispatches, however slow -----

  /** An over-cap delivery of the entry whose dispatch has begun, or may still begin. */
  predicate OverCap(cfg: Config, d: Delivery, stage: Stage, id: nat) {
    d.id == id && cfg.cap < d.attempt && (d.begun || (d.run.Idle? && !stage.Dropped?))
  }

  function OverCaps(cfg: Config, ds: seq<Delivery>, stages: seq<Stage>, id: nat): nat
    requires |ds| == |stages|
  {
    if ds == [] then 0
    else OverCaps(cfg, ds[..|ds| - 1], stages[..|ds| - 1], id) + One(OverCap(cfg, ds[|ds| - 1], stages[|ds| - 1], id))
  }

  const ACTIVE_STAGES: set<Stage> := LOOP_STAGES + SLOT_STAGES

  lemma {:induction false} ActiveWithin(sub: Sub, m: nat)
    requires LoopsOwn(sub) && m <= |sub.stages|
    ensures Count(sub.stages[..m], ACTIVE_STAGES)
         <= One(sub.reader.REmit? && sub.reader.n < m) + One(sub.claimer.CEmit? && sub.claimer.n < m)
            + Count(sub.stages[..m], SLOT_STAGES)
  {
    if m > 0 {
      ActiveWithin(sub, m - 1);
      assert sub.stages[..m][..m - 1] == sub.stages[..m - 1];
    }
  }

  /** A delivery a loop or a waiter still owns holds one of the subscription's slots. */
  lemma ActiveHoldSlots(cfg: Config, sub: Sub)
    requires Controlled(cfg, sub)
    ensures Count(sub.stages, ACTIVE_STAGES) <= cfg.concurrency
  {
    ActiveWithin(sub, |sub.stages|);
    assert sub.stages[..|sub.stages|] == sub.stages;
  }

  lemma {:induction false} OverCapsActive(cfg: Config, ds: seq<Delivery>, stages: seq<Stage>, id: nat)
    requires |ds| == |stages|
    requires forall n :: 0 <= n < |ds| && OverCap(cfg, ds[n], stages[n], id) ==> stages[n] in ACTIVE_STAGES
    ensures OverCaps(cfg, ds, stages, id) <= Count(stages, ACTIVE_STAGES)
  {
    if ds != [] {
      OverCapsActive(cfg, ds[..|ds| - 1], stages[..|ds| - 1], id);
    }
  }

  lemma {:induction false} OverCapsShrink(cfg: Config, ds: seq<Delivery>, stages: seq<Stage>,
                                          ds': seq<Delivery>, stages': seq<Stage>, id: nat)
    requires |ds| == |stages| && |ds'| == |stages'| && |ds| <= |ds'|
    requires forall n :: 0 <= n < |ds| && OverCap(cfg, ds'[n], stages'[n], id) ==> OverCap(cfg, ds[n], stages[n], id)
    requires forall n :: |ds| <= n < |ds'| ==> ds'[n].id != id
    ensures OverCaps(cfg, ds', stages', id) <= OverCaps(cfg, ds, stages, id)
    decreases |ds'|
  {
    if ds' != [] {
      var m := |ds'| - 1;
      if |ds| == |ds'| {
        OverCapsShrink(cfg, ds[..m], stages[..m], ds'[..m], stages'[..m], id);
      } else {
        OverCapsShrink(cfg, ds, stages, ds'[..m], stages'[..m], id);
      }
    }
  }

  /** While the entry is not off the pending list, each of its over-cap deliveries holds a slot. */
  lemma PendingOverCapsActive(cfg: Config, log: Log, k: nat, sub: Sub, id: nat)
    requires CleanSub(cfg, log, sub) && DeliveriesKept(cfg, false, log, k, sub) && !OffPending(log, id)
    ensures forall n :: 0 <= n < |sub.deliveries| && OverCap(cfg, sub.deliveries[n], sub.stages[n], id) ==>
              sub.stages[n] in ACTIVE_STAGES
  {
    forall n | 0 <= n < |sub.deliveries| && OverCap(cfg, sub.deliveries[n], sub.stages[n], id)
      ensures sub.stages[n] in ACTIVE_STAGES
    {
      assert CleanDelivery(cfg, log, sub.deliveries[n], sub.stages[n]);
      assert Drained(false, sub.deliveries[n], sub.stages[n]);
    }
  }

  /** A step makes no delivery over-cap that was not, and what it receives is pending. */
  lemma OverCapComesFrom(cfg: Config, env: Env, k: nat, v: View, a: SubAct, id: nat)
    requires Enabled(cfg, env, v, a) && |v.sub.stages| == |v.sub.deliveries|
    ensures var next := Step(cfg, env, k, v, a);
            && |next.sub.stages| == |next.sub.deliveries| && |v.sub.deliveries| <= |next.sub.deliveries|
            && (forall n :: 0 <= n < |v.sub.deliveries| && OverCap(cfg, next.sub.deliveries[n], next.sub.stages[n], id) ==>
                 OverCap(cfg, v.sub.deliveries[n], v.sub.stages[n], id))
            && (forall n :: |v.sub.deliveries| <= n < |next.sub.deliveries| ==>
                 !OffPending(next.log, next.sub.deliveries[n].id))
  {
    match a
    case OfReader(r) => assert ReadStep(cfg, env, k, v, r) == Step(cfg, env, k, v, a);
    case OfClaimer(c) => assert ClaimStep(cfg, env, k, v, c) == Step(cfg, env, k, v, a);
    case OfEmit(who, e) => assert EmitStep(env, v, who, e).sub == Step(cfg, env, k, v, a).sub;
    case OfEnd(z) =>
    case OfMessage(i, b) =>
  }

  lemma StepKeepsOverCaps(cfg: Config, st: State, a: Act, next: State, k: nat, id: nat)
    requires Steady(cfg, st, k) && Steady(cfg, next, k) && Follows(cfg, st, a, next)
    requires OverCaps(cfg, st.subs[k].deliveries, st.subs[k].stages, id) <= cfg.concurrency
    ensures OverCaps(cfg, next.subs[k].deliveries, next.subs[k].stages, id) <= cfg.concurrency
  {
    HomeBefore(cfg, st, a, next, k);
    if a.Local? && a.k == k {
      var log, old', new' := next.logs[next.subs[k].log], st.subs[k], next.subs[k];
      OverCapComesFrom(cfg, EnvOf(st, k), k, ViewOf(st, k), a.a, id);
      if OffPending(log, id) {
        OverCapsShrink(cfg, old'.deliveries, old'.stages, new'.deliveries, new'.stages, id);
      } else {
        PendingOverCapsActive(cfg, log, k, new', id);
        OverCapsActive(cfg, new'.deliveries, new'.stages, id);
        ActiveHoldSlots(cfg, new');
      }
    }
  }

  /** A subscription has at most Concurrency over-cap deliveries of an entry that are or may be dispatched: while the
      entry is pending each holds a slot, and the first XACK, by whichever instance, ends its grants. */
  lemma {:induction false} OverCapsWithinSlots(cfg: Config, states: seq<State>, acts: seq<Act>, i: nat, k: nat, id: nat)
    requires SteadyRun(cfg, states, acts, i, k)
    ensures |states[i].subs[k].stages| == |states[i].subs[k].deliveries|
    ensures OverCaps(cfg, states[i].subs[k].deliveries, states[i].subs[k].stages, id) <= cfg.concurrency
  {
    RunStaysSteady(cfg, states, acts, i, k);
    if i == 0 || |states[i - 1].subs| <= k {
      NewIsSteady(cfg, states, acts, i, k);
    } else {
      SteadyBefore(cfg, states, acts, i, k);
      RunStaysSteady(cfg, states, acts, i - 1, k);
      OverCapsWithinSlots(cfg, states, acts, i - 1, k, id);
      StepKeepsOverCaps(cfg, states[i - 1], acts[i - 1], states[i], k, id);
    }
  }

  // ----- the results -----

  /** An over-cap dispatch that is over has taken its entry off the pending list, and so has the emission of
      an undecodable entry. */
  lemma PoisonLeavesPending(cfg: Config, states: seq<State>, acts: seq<Act>, i: nat, k: nat, n: nat)
    requires SteadyRun(cfg, states, acts, i, k) && n < |states[i].subs[k].deliveries|
    ensures |states[i].subs[k].stages| == |states[i].subs[k].deliveries|
    ensures var log, sub := states[i].logs[states[i].subs[k].log], states[i].subs[k];
            var d, stage := sub.deliveries[n], sub.stages[n];
            && (Capped(cfg, d) && !Busy(d, stage) ==> log.group.Some? && d.id !in log.group.value.pel)
            && (d.id in log.undecodable && stage.Dropped? ==> log.group.Some? && d.id !in log.group.value.pel)
  {
    RunStaysSteady(cfg, states, acts, i, k);
    var log, sub := states[i].logs[states[i].subs[k].log], states[i].subs[k];
    assert Kept(cfg, false, log, k, sub.deliveries[n], sub.stages[n]);
    assert CleanDelivery(cfg, log, sub.deliveries[n], sub.stages[n]);
    GroupPresent(cfg, log, k, sub.deliveries[n]);
  }

  /** How many of the first `upTo` deliveries of an entry reached dispatch. */
  function TimesDispatched(ds: seq<Delivery>, id: nat, upTo: nat): nat
    requires upTo <= |ds|
  {
    if upTo == 0 then 0
    else TimesDispatched(ds, id, upTo - 1) + One(ds[upTo - 1].id == id && ds[upTo - 1].begun)
  }

  lemma {:induction false} DispatchesBelow(ds: seq<Delivery>, id: nat, upTo: nat, most: nat)
    requires AttemptsGrow(ds) && upTo <= |ds|
    requires forall n :: 0 <= n < upTo && ds[n].id == id && ds[n].begun ==> ds[n].attempt <= most
    ensures TimesDispatched(ds, id, upTo) <= most
  {
    if upTo > 0 {
      var n := upTo - 1;
      DispatchesBelow(ds, id, n, if ds[n].id == id && ds[n].begun then ds[n].attempt - 1 else most);
    }
  }

  lemma {:induction false} DispatchesUpToCap(cfg: Config, sub: Sub, id: nat, upTo: nat)
    requires AttemptsGrow(sub.deliveries) && CappedIsLast(cfg, sub) && 1 <= cfg.cap && upTo <= |sub.deliveries|
    ensures TimesDispatched(sub.deliveries, id, upTo) <= cfg.cap + 1
  {
    if upTo > 0 {
      var n := upTo - 1;
      if sub.deliveries[n].id == id && sub.deliveries[n].begun {
        DispatchesBelow(sub.deliveries, id, n, cfg.cap);
      } else {
        DispatchesUpToCap(cfg, sub, id, n);
      }
    }
  }

  /** How many of the first `upTo` deliveries of an entry are stamped within the cap. */
  function ReceivedWithin(ds: seq<Delivery>, id: nat, cap: int, upTo: nat): nat
    requires upTo <= |ds|
  {
    if upTo == 0 then 0
    else ReceivedWithin(ds, id, cap, upTo - 1) + One(ds[upTo - 1].id == id && 1 <= ds[upTo - 1].attempt <= cap)
  }

  lemma {:induction false} ReceivedUpToCap(ds: seq<Delivery>, id: nat, cap: nat, upTo: nat, most: nat)
    requires AttemptsGrow(ds) && upTo <= |ds|
    requires forall n :: 0 <= n < upTo && ds[n].id == id && ds[n].attempt <= cap ==> ds[n].attempt <= most
    ensures ReceivedWithin(ds, id, cap, upTo) <= most
  {
    if upTo > 0 {
      var d := ds[upTo - 1];
      ReceivedUpToCap(ds, id, cap, upTo - 1, if d.id == id && d.attempt <= cap then d.attempt - 1 else most);
    }
  }

  /** A dispatch is within the cap or counted above it. */
  lemma {:induction false} DispatchesSplit(cfg: Config, ds: seq<Delivery>, stages: seq<Stage>, id: nat, upTo: nat)
    requires AttemptsGrow(ds) && upTo <= |ds| == |stages|
    ensures TimesDispatched(ds, id, upTo)
         <= ReceivedWithin(ds, id, cfg.cap, upTo) + OverCaps(cfg, ds[..upTo], stages[..upTo], id)
  {
    if upTo > 0 {
      var n := upTo - 1;
      assert ds[..upTo][..n] == ds[..n] && stages[..upTo][..n] == stages[..n];
      DispatchesSplit(cfg, ds, stages, id, n);
    }
  }

  /** One subscription's dispatches of an entry: those within the cap, and at most Concurrency above it. */
  lemma DispatchesOfOne(cfg: Config, states: seq<State>, acts: seq<Act>, i: nat, k: nat, id: nat)
    requires SteadyRun(cfg, states, acts, i, k)
    ensures AttemptsGrow(states[i].subs[k].deliveries)
    ensures var ds := states[i].subs[k].deliveries;
            TimesDispatched(ds, id, |ds|) <= ReceivedWithin(ds, id, cfg.cap, |ds|) + cfg.concurrency
  {
    var sub := states[i].subs[k];
    OverCapsWithinSlots(cfg, states, acts, i, k, id);
    SubscriptionAttemptsGrow(cfg, states, acts, i, k);
    DispatchesSplit(cfg, sub.deliveries, sub.stages, id, |sub.deliveries|);
    assert sub.deliveries[..|sub.deliveries|] == sub.deliveries && sub.stages[..|sub.stages|] == sub.stages;
  }

  /** On any number of instances, however slow the handlers: a subscription dispatches an entry at most
      MaxDeliveryAttempts + Concurrency times, so at most MaxDeliveryAttempts + 1 times at Concurrency 1, the default. */
  lemma PoisonBounded(cfg: Config, states: seq<State>, acts: seq<Act>, i: nat, k: nat, id: nat)
    requires SteadyRun(cfg, states, acts, i, k) && 1 <= cfg.cap
    ensures TimesDispatched(states[i].subs[k].deliveries, id, |states[i].subs[k].deliveries|) <= cfg.cap + cfg.concurrency
    ensures cfg.concurrency == 1 ==>
              TimesDispatched(states[i].subs[k].deliveries, id, |states[i].subs[k].deliveries|) <= cfg.cap + 1
  {
    DispatchesOfOne(cfg, states, acts, i, k, id);
    ReceivedUpToCap(states[i].subs[k].deliveries, id, cfg.cap, |states[i].subs[k].deliveries|, cfg.cap);
  }

  /** When the stream's deliveries are also timely, at most MaxDeliveryAttempts + 1 times at any Concurrency. */
  lemma PoisonTerminates(cfg: Config, states: seq<State>, acts: seq<Act>, i: nat, k: nat, id: nat)
    requires CalmRun(cfg, states, acts, i, k) && 1 <= cfg.cap
    ensures TimesDispatched(states[i].subs[k].deliveries, id, |states[i].subs[k].deliveries|) <= cfg.cap + 1
  {
    RunStaysCalm(cfg, states, acts, i, k);
    SubscriptionAttemptsGrow(cfg, states, acts, i, k);
    DispatchesUpToCap(cfg, states[i].subs[k], id, |states[i].subs[k].deliveries|);
  }
}
