/** Safety over every run: no event is lost, slots are exact, the drain honours every ack, and a lost
    group is created again exactly once. */
module ConsumeSafety {
  import opened Basics
  import opened RedisStream
  import opened Subscriber
  import opened SubscriberInvariant
  import opened ConsumeSystem

  // ----- no event is lost -----

  /** Whatever was nacked, crashed, lost or failed: an entry on a stream whose group exists is
      undelivered, pending, or settled. */
  lemma NoEventLost(cfg: Config, states: seq<State>, acts: seq<Act>, i: nat, t: nat, id: nat)
    requires IsRun(cfg, states, acts) && i < |states| && t < |states[i].logs|
    requires id in states[i].logs[t].entries
    ensures var log := states[i].logs[t];
            || log.group.None?
            || log.group.value.last < id
            || id in log.group.value.pel
            || id in log.handled || id in log.dlq
  {
    Reachable(cfg, states, acts, i);
    assert LogInv(cfg, states[i].logs[t]);
  }

  /** The steps of recreateGroup that reach the server. */
  predicate Recreates(a: SubAct) {
    a == OfReader(ReadRecreate(true)) || a == OfClaimer(ClaimRecreate(true))
  }

  /** When a loop recreates a missing group, every entry still on the stream is deliverable again; a group that is
      there already keeps its position and its pending list. */
  lemma RecreationRestores(cfg: Config, states: seq<State>, acts: seq<Act>, i: nat)
    requires IsRun(cfg, states, acts) && i < |acts| && acts[i].Local? && Recreates(acts[i].a)
    ensures Live(states[i], acts[i].k) && |states[i + 1].logs| == |states[i].logs|
    ensures var t := states[i].subs[acts[i].k].log; var log, next := states[i].logs[t], states[i + 1].logs[t];
            && next.group.Some? && next.entries == log.entries
            && (log.group.Some? ==> next == log)
            && (log.group.None? ==>
                 next.group.value.pel == map[] && forall id :: id in log.entries ==> next.group.value.last < id)
  {
    Reachable(cfg, states, acts, i);
    assert StepAt(cfg, states, acts, i);
    assert LogInv(cfg, states[i].logs[states[i].subs[acts[i].k].log]);
  }

  /** However read loops, claim loops and other instances race to recreate it, a lost group is created
      once per loss. */
  lemma GroupCreatedOncePerLoss(cfg: Config, states: seq<State>, acts: seq<Act>, i: nat, t: nat)
    requires IsRun(cfg, states, acts) && i < |states| && t < |states[i].logs|
    ensures states[i].logs[t].creations == states[i].logs[t].losses + (if states[i].logs[t].group.Some? then 1 else 0)
  {
    Reachable(cfg, states, acts, i);
    assert LogInv(cfg, states[i].logs[t]);
  }

  /** One step never loses ground on a stream: what is settled or granted stays, and while the group is
      not lost its position only moves forward and no entry returns to the pending list. */
  lemma StepExtends(cfg: Config, st: State, a: Act, t: nat)
    requires SysInv(cfg, st) && ActEnabled(cfg, st, a) && t < |st.logs|
    ensures |Next(cfg, st, a).logs| == |st.logs|
    ensures exists actor :: Extends(st.logs[t], Next(cfg, st, a).logs[t], actor)
  {
    var next := Next(cfg, st, a);
    assert LogInv(cfg, st.logs[t]);
    if a.Local? && st.subs[a.k].log == t {
      LocalKeeps(cfg, st, a.k, a.a);
      assert Extends(st.logs[t], next.logs[t], a.k);
    } else {
      EnvironmentKeeps(cfg, st.logs[t], !a.PublishEvent? || a.decodable);
      EnsureKeeps(cfg, st.logs[t], -1);
      Unmoved(cfg, st.logs[t]);
      assert Extends(st.logs[t], next.logs[t], -1);
    }
  }

  /** Between two losses the group stays: it is never reset, its position never moves back, and an
      entry that left the pending list never returns to it. */
  lemma {:induction false} GroupSurvives(cfg: Config, states: seq<State>, acts: seq<Act>, i: nat, j: nat, t: nat)
    requires IsRun(cfg, states, acts) && i <= j < |states| && t < |states[i].logs|
    requires states[i].logs[t].group.Some?
    ensures |states[j].logs| == |states[i].logs|
    ensures states[i].logs[t].losses <= states[j].logs[t].losses
    ensures states[i].logs[t].losses == states[j].logs[t].losses ==>
              var a, b := states[i].logs[t].group, states[j].logs[t].group;
              && b.Some?
              && a.value.last <= b.value.last
              && states[j].logs[t].creations == states[i].logs[t].creations
              && (forall id :: id in b.value.pel && id <= a.value.last ==>
                   id in a.value.pel && a.value.pel[id].count <= b.value.pel[id].count)
    decreases j - i
  {
    GroupCreatedOncePerLoss(cfg, states, acts, i, t);
    if i < j {
      Reachable(cfg, states, acts, i);
      assert StepAt(cfg, states, acts, i);
      StepExtends(cfg, states[i], acts[i], t);
      if states[i + 1].logs[t].group.Some? {
        GroupSurvives(cfg, states, acts, i + 1, j, t);
        GroupCreatedOncePerLoss(cfg, states, acts, j, t);
      } else {
        LossesGrow(cfg, states, acts, i + 1, j, t);
      }
    }
  }

  lemma {:induction false} LossesGrow(cfg: Config, states: seq<State>, acts: seq<Act>, i: nat, j: nat, t: nat)
    requires IsRun(cfg, states, acts) && i <= j < |states| && t < |states[i].logs|
    ensures |states[j].logs| == |states[i].logs|
    ensures states[i].logs[t].losses <= states[j].logs[t].losses
    decreases j - i
  {
    if i < j {
      Reachable(cfg, states, acts, i);
      assert StepAt(cfg, states, acts, i);
      StepExtends(cfg, states[i], acts[i], t);
      LossesGrow(cfg, states, acts, i + 1, j, t);
    }
  }

  /** The entry an action acknowledges on the server. */
  function Acknowledged(sub: Sub, a: SubAct): Option<nat> {
    match a
    case OfMessage(n, Xack(true)) => if n < |sub.deliveries| then Some(sub.deliveries[n].id) else None
    case OfEmit(who, HookXack(true)) =>
      if Emitting(sub, who) then Some(sub.deliveries[Current(sub, who).value].id) else None
    case _ => None
  }

  /** Every XACK, also a late one for a delivery made under a lost group, is for a settled entry; it
      leaves the entry settled and touches no other pending entry. */
  lemma AcksOnlySettled(cfg: Config, states: seq<State>, acts: seq<Act>, i: nat)
    requires IsRun(cfg, states, acts) && i < |acts| && acts[i].Local?
    requires Live(states[i], acts[i].k) && Acknowledged(states[i].subs[acts[i].k], acts[i].a).Some?
    ensures var t, id := states[i].subs[acts[i].k].log, Acknowledged(states[i].subs[acts[i].k], acts[i].a).value;
            && |states[i + 1].logs| == |states[i].logs|
            && Settled(states[i].logs[t], id)
            && states[i + 1].logs[t] == Ack(states[i].logs[t], id)
  {
    Reachable(cfg, states, acts, i);
    assert StepAt(cfg, states, acts, i);
    var k, a, sub := acts[i].k, acts[i].a, states[i].subs[acts[i].k];
    assert SubOk(cfg, states[i], k);
    var n := if a.OfMessage? then a.n else Current(sub, a.who).value;
    assert Justified(states[i].logs[sub.log], sub.deliveries[n], sub.stages[n]);
  }

  // ----- slots -----

  /** The semaphore holds one token per loop that has taken one and per waiter that has not released
      it, and never more than Concurrency. */
  lemma SlotAccounting(cfg: Config, states: seq<State>, acts: seq<Act>, i: nat, k: nat)
    requires IsRun(cfg, states, acts) && i < |states| && k < |states[i].subs|
    ensures var sub := states[i].subs[k];
            && sub.sem == One(ReaderHolds(sub)) + One(ClaimerHolds(sub)) + Count(sub.stages, SLOT_STAGES)
            && sub.sem <= cfg.concurrency
  {
    Reachable(cfg, states, acts, i);
    assert SubOk(cfg, states[i], k);
  }

  /** The steps that receive from the semaphore. */
  predicate Releases(a: SubAct) {
    match a
    case OfReader(r) => r.ReadRelease?
    case OfClaimer(c) => c.ClaimRelease?
    case OfEmit(_, e) => e.Drop? || e.Unsend?
    case OfMessage(_, m) => m.Unwind?
    case _ => false
  }

  predicate Acquires(a: SubAct) {
    (a.OfReader? && a.r.ReadAcquire?) || (a.OfClaimer? && a.c.ClaimAcquire?)
  }

  predicate EndsGoroutine(a: SubAct) {
    (a.OfEnd? && a.z.Finish?) || (a.OfMessage? && a.m.Leave?)
  }

  lemma SemaphoreMoves(cfg: Config, env: Env, k: nat, v: View, a: SubAct)
    requires Controlled(cfg, v.sub) && Outstanding(v.sub) <= v.wg && Enabled(cfg, env, v, a)
    ensures Releases(a) ==> 1 <= v.sub.sem
    ensures Step(cfg, env, k, v, a).sub.sem + One(Releases(a)) == v.sub.sem + One(Acquires(a))
    ensures EndsGoroutine(a) ==> 1 <= v.wg
  {
    if a.OfMessage? {
      if a.m.Unwind? {
        CountPositive(v.sub.stages, a.n, SLOT_STAGES);
      }
      if a.m.Leave? {
        CountPositive(v.sub.stages, a.n, WAITER_STAGES);
      }
    }
  }

  /** `release` never blocks, WaitGroup.Done never goes below zero, and a step moves the semaphore of its
      own subscription only, by exactly one token for an acquire and one for a release. */
  lemma ReleaseNeverBlocks(cfg: Config, states: seq<State>, acts: seq<Act>, i: nat)
    requires IsRun(cfg, states, acts) && i < |acts| && acts[i].Local?
    ensures Live(states[i], acts[i].k) && |states[i + 1].subs| == |states[i].subs|
    ensures var k, a, st, next := acts[i].k, acts[i].a, states[i], states[i + 1];
            && (Releases(a) ==> 1 <= st.subs[k].sem)
            && next.subs[k].sem + One(Releases(a)) == st.subs[k].sem + One(Acquires(a))
            && (EndsGoroutine(a) ==> 1 <= st.insts[st.subs[k].inst].wg)
            && forall j :: 0 <= j < |st.subs| && j != k ==> next.subs[j] == st.subs[j]
  {
    Reachable(cfg, states, acts, i);
    assert StepAt(cfg, states, acts, i);
    var k, st := acts[i].k, states[i];
    assert SubOk(cfg, st, k);
    OutstandingAtLeast(st.subs, k);
    SemaphoreMoves(cfg, EnvOf(st, k), k, ViewOf(st, k), acts[i].a);
  }

  /** Handlers running on a subscription. */
  function RunningHandlers(ds: seq<Delivery>): nat {
    if ds == [] then 0 else RunningHandlers(ds[..|ds| - 1]) + One(ds[|ds| - 1].run.Running?)
  }

  lemma {:induction false} RunningHoldSlots(ds: seq<Delivery>, stages: seq<Stage>)
    requires |ds| == |stages|
    requires forall n :: 0 <= n < |ds| && ds[n].run.Running? ==> stages[n] in SLOT_STAGES
    ensures RunningHandlers(ds) <= Count(stages, SLOT_STAGES)
  {
    if ds != [] {
      RunningHoldSlots(ds[..|ds| - 1], stages[..|ds| - 1]);
    }
  }

  /** Until Close begins, at most Concurrency handlers of a subscription run at once. */
  lemma HandlersBounded(cfg: Config, states: seq<State>, acts: seq<Act>, i: nat, k: nat)
    requires IsRun(cfg, states, acts) && i < |states| && k < |states[i].subs|
    requires states[i].subs[k].inst < |states[i].insts| && !states[i].insts[states[i].subs[k].inst].closing
    ensures RunningHandlers(states[i].subs[k].deliveries) <= cfg.concurrency
  {
    Reachable(cfg, states, acts, i);
    assert SubOk(cfg, states[i], k);
    var sub := states[i].subs[k];
    forall n | 0 <= n < |sub.deliveries| && sub.deliveries[n].run.Running? ensures sub.stages[n] in SLOT_STAGES {
      assert Drained(false, sub.deliveries[n], sub.stages[n]);
    }
    RunningHoldSlots(sub.deliveries, sub.stages);
  }

  // ----- drain -----

  /** Delivery `n` of subscription `k` exists in this state. */
  predicate Exists(st: State, k: nat, n: nat) {
    && k < |st.subs| && st.subs[k].inst < |st.insts|
    && n < |st.subs[k].deliveries| == |st.subs[k].stages|
  }

  /** A message's context is cancelled only after its ack or nack, or after Close; never by the
      cancellation of ctx alone. */
  lemma ContextOutlivesHandler(cfg: Config, states: seq<State>, acts: seq<Act>, i: nat, k: nat, n: nat)
    requires IsRun(cfg, states, acts) && i < |states| && Exists(states[i], k, n)
    requires Sent(states[i].subs[k].stages[n]) && states[i].subs[k].deliveries[n].ctxDone
    ensures states[i].subs[k].deliveries[n].run.Returned? || states[i].insts[states[i].subs[k].inst].closing
  {
    Reachable(cfg, states, acts, i);
    assert SubOk(cfg, states[i], k);
    var sub := states[i].subs[k];
    assert Drained(states[i].insts[sub.inst].closing, sub.deliveries[n], sub.stages[n]);
  }

  /** An acked message whose waiter is still waiting, or one whose XACK is under way or attempted. */
  predicate AckHonoured(sub: Sub, n: nat) {
    && n < |sub.deliveries| == |sub.stages|
    && sub.deliveries[n].run == Returned(true)
    && Sent(sub.stages[n])
    && (sub.deliveries[n].tried || sub.stages[n] in {Waiting, Acking})
  }

  lemma AckStaysHonoured(cfg: Config, env: Env, k: nat, v: View, a: SubAct, n: nat)
    requires Enabled(cfg, env, v, a) && AckHonoured(v.sub, n)
    ensures AckHonoured(Step(cfg, env, k, v, a).sub, n)
  {
    match a
    case OfReader(r) => assert ReadStep(cfg, env, k, v, r).sub == Step(cfg, env, k, v, a).sub;
    case OfClaimer(c) => assert ClaimStep(cfg, env, k, v, c).sub == Step(cfg, env, k, v, a).sub;
    case OfEmit(who, e) =>
      assert Current(v.sub, who).value != n;
      assert EmitStep(env, v, who, e).sub == Step(cfg, env, k, v, a).sub;
    case OfEnd(z) =>
    case OfMessage(i, b) =>
  }

  /** An ack that landed before the waiter left always gets its XACK attempt, whichever branch of the
      select the waiter takes. */
  lemma {:induction false} LandedAckIsAttempted(cfg: Config, states: seq<State>, acts: seq<Act>, i: nat, j: nat,
                                                k: nat, n: nat)
    requires IsRun(cfg, states, acts) && i <= j < |states|
    requires k < |states[i].subs| && AckHonoured(states[i].subs[k], n)
    ensures k < |states[j].subs| && AckHonoured(states[j].subs[k], n)
    ensures states[j].subs[k].stages[n] in {Unwinding, Leaving, Gone} ==> states[j].subs[k].deliveries[n].tried
    decreases j - i
  {
    if i < j {
      assert StepAt(cfg, states, acts, i);
      if acts[i].Local? && acts[i].k == k {
        AckStaysHonoured(cfg, EnvOf(states[i], k), k, ViewOf(states[i], k), acts[i].a, n);
      }
      LandedAckIsAttempted(cfg, states, acts, i + 1, j, k, n);
    }
  }

  /** Nothing is sent on `out` after it is closed. */
  lemma NoSendAfterClose(cfg: Config, states: seq<State>, acts: seq<Act>, i: nat)
    requires IsRun(cfg, states, acts) && i < |acts| && acts[i].Local?
    requires acts[i].a.OfEmit? && acts[i].a.e.Send?
    ensures acts[i].k < |states[i].subs| && !states[i].subs[acts[i].k].outClosed
  {
    Reachable(cfg, states, acts, i);
    assert StepAt(cfg, states, acts, i);
    assert SubOk(cfg, states[i], acts[i].k);
  }

  lemma {:induction false} NoneOutstanding(stages: seq<Stage>, n: nat)
    requires Count(stages, WAITER_STAGES) == 0 && n < |stages|
    ensures stages[n] !in WAITER_STAGES
  {
    if stages[n] in WAITER_STAGES {
      CountPositive(stages, n, WAITER_STAGES);
    }
  }

  /** When Close's wait can return, every subscription of the process has ended and every waiter has
      released its slot: the semaphores are empty. */
  lemma CloseWaitsForAll(cfg: Config, states: seq<State>, acts: seq<Act>, i: nat, k: nat)
    requires IsRun(cfg, states, acts) && i < |states| && k < |states[i].subs|
    requires states[i].subs[k].inst < |states[i].insts| && states[i].insts[states[i].subs[k].inst].wg == 0
    ensures var sub := states[i].subs[k];
            && sub.finished && sub.outClosed && sub.reader.RDone? && sub.claimer.CDone?
            && sub.sem == 0
            && forall n :: 0 <= n < |sub.stages| ==> sub.stages[n] in {Dropped, Gone}
  {
    Reachable(cfg, states, acts, i);
    assert SubOk(cfg, states[i], k);
    OutstandingAtLeast(states[i].subs, k);
    var sub := states[i].subs[k];
    assert Count(sub.stages, WAITER_STAGES) == 0;
    forall n | 0 <= n < |sub.stages| ensures sub.stages[n] in {Dropped, Gone} {
      NoneOutstanding(sub.stages, n);
    }
    SlotStagesAreWaiters(sub.stages);
  }

  lemma {:induction false} SlotStagesAreWaiters(stages: seq<Stage>)
    ensures Count(stages, SLOT_STAGES) <= Count(stages, WAITER_STAGES)
  {
    if stages != [] {
      SlotStagesAreWaiters(stages[..|stages| - 1]);
    }
  }

  lemma {:induction false} NothingOutstanding(subs: seq<Sub>, i: nat)
    requires forall k :: 0 <= k < |subs| && subs[k].inst == i ==>
               subs[k].finished && forall n :: 0 <= n < |subs[k].stages| ==> subs[k].stages[n] !in WAITER_STAGES
    ensures OutstandingOf(subs, i) == 0
  {
    if subs != [] {
      NothingOutstanding(subs[..|subs| - 1], i);
      var last := subs[|subs| - 1];
      if last.inst == i {
        NoWaiters(last.stages);
      }
    }
  }

  lemma {:induction false} NoWaiters(stages: seq<Stage>)
    requires forall n :: 0 <= n < |stages| ==> stages[n] !in WAITER_STAGES
    ensures Count(stages, WAITER_STAGES) == 0
  {
    if stages != [] {
      NoWaiters(stages[..|stages| - 1]);
    }
  }

  /** The converse: once every subscription of the process has ended and every waiter has left, Close's wait returns. */
  lemma CloseReturns(cfg: Config, states: seq<State>, acts: seq<Act>, j: nat, i: nat)
    requires IsRun(cfg, states, acts) && j < |states| && i < |states[j].insts|
    requires forall k :: 0 <= k < |states[j].subs| && states[j].subs[k].inst == i ==>
               && states[j].subs[k].finished
               && forall n :: 0 <= n < |states[j].subs[k].stages| ==> states[j].subs[k].stages[n] in {Dropped, Gone}
    ensures states[j].insts[i].wg == 0
  {
    Reachable(cfg, states, acts, j);
    NothingOutstanding(states[j].subs, i);
  }
}
