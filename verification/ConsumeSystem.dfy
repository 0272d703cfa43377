/** The whole system: streams with their consumer group, any number of consumer processes, their
    subscriptions, and everything the environment may do to them. */
module ConsumeSystem {
  import opened RedisStream
  import opened Subscriber
  import opened SubscriberInvariant

  /** One process: its Subscriber's `closing` channel, its ctx, its WaitGroup. */
  datatype Inst = Inst(closing: bool, cancelled: bool, crashed: bool, wg: nat)

  datatype State = State(now: nat, logs: seq<Log>, insts: seq<Inst>, subs: seq<Sub>)

  /** `SubscribeFailed` is a Subscribe whose EnsureGroup took effect but whose reply was lost. */
  datatype Act =
    | Local(k: nat, a: SubAct)
    | PublishEvent(t: nat, decodable: bool) | ClockTick | LoseGroup(t: nat) | LoseStream(t: nat)
    | StartProcess | Subscribe(i: nat, t: nat, claims: bool) | SubscribeFailed(t: nat)
    | CancelCtx(i: nat) | BeginClose(i: nat) | Crash(i: nat)

  predicate Live(st: State, k: nat) {
    k < |st.subs| && st.subs[k].inst < |st.insts| && st.subs[k].log < |st.logs|
    && !st.insts[st.subs[k].inst].crashed
  }

  function EnvOf(st: State, k: nat): Env
    requires Live(st, k)
  {
    var i := st.insts[st.subs[k].inst];
    Env(st.now, i.closing, i.cancelled)
  }

  function ViewOf(st: State, k: nat): View
    requires Live(st, k)
  {
    View(st.logs[st.subs[k].log], st.subs[k], st.insts[st.subs[k].inst].wg)
  }

  function WithView(st: State, k: nat, v: View): State
    requires Live(st, k)
  {
    var i, t := st.subs[k].inst, st.subs[k].log;
    st.(logs := st.logs[t := v.log], insts := st.insts[i := st.insts[i].(wg := v.wg)], subs := st.subs[k := v.sub])
  }

  const NEW_PROCESS := Inst(false, false, false, 0)

  function NewSub(i: nat, t: nat, claims: bool): Sub {
    Sub(i, t, 0, RAcquire, if claims then CTick else CDone, false, false, [], [])
  }

  ghost predicate ActEnabled(cfg: Config, st: State, a: Act) {
    match a
    case Local(k, b) => Live(st, k) && Enabled(cfg, EnvOf(st, k), ViewOf(st, k), b)
    case PublishEvent(t, _) => t < |st.logs|
    case ClockTick => true
    case LoseGroup(t) => t < |st.logs|
    case LoseStream(t) => t < |st.logs|
    case StartProcess => true
    case Subscribe(i, t, _) => i < |st.insts| && !st.insts[i].crashed && t < |st.logs|
    case SubscribeFailed(t) => t < |st.logs|
    case CancelCtx(i) => i < |st.insts|
    case BeginClose(i) => i < |st.insts|
    case Crash(i) => i < |st.insts|
  }

  function Next(cfg: Config, st: State, a: Act): State
    requires ActEnabled(cfg, st, a)
  {
    match a
    case Local(k, b) => WithView(st, k, Step(cfg, EnvOf(st, k), k, ViewOf(st, k), b))
    case PublishEvent(t, decodable) => st.(logs := st.logs[t := Publish(st.logs[t], decodable)])
    case ClockTick => st.(now := st.now + 1)
    case LoseGroup(t) => st.(logs := st.logs[t := DestroyGroup(st.logs[t])])
    case LoseStream(t) => st.(logs := st.logs[t := DeleteStream(st.logs[t])])
    case StartProcess => st.(insts := st.insts + [NEW_PROCESS])
    case Subscribe(i, t, claims) =>
      st.(logs := st.logs[t := EnsureGroup(st.logs[t])],
          insts := st.insts[i := st.insts[i].(wg := st.insts[i].wg + 1)],
          subs := st.subs + [NewSub(i, t, claims)])
    case SubscribeFailed(t) => st.(logs := st.logs[t := EnsureGroup(st.logs[t])])
    case CancelCtx(i) => st.(insts := st.insts[i := st.insts[i].(cancelled := true)])
    case BeginClose(i) => st.(insts := st.insts[i := st.insts[i].(closing := true)])
    case Crash(i) => st.(insts := st.insts[i := st.insts[i].(crashed := true)])
  }

  ghost predicate Initial(st: State) {
    && st.insts == [] && st.subs == []
    && forall t :: 0 <= t < |st.logs| ==> st.logs[t] == EMPTY_LOG
  }

  /** A run: every state follows from the one before by its action. */
  ghost predicate IsRun(cfg: Config, states: seq<State>, acts: seq<Act>) {
    && |states| == |acts| + 1
    && Initial(states[0])
    && forall i: nat :: i < |acts| ==> StepAt(cfg, states, acts, i)
  }

  ghost predicate StepAt(cfg: Config, states: seq<State>, acts: seq<Act>, i: nat) {
    i < |acts| && i + 1 < |states| && Follows(cfg, states[i], acts[i], states[i + 1])
  }

  ghost predicate Follows(cfg: Config, st: State, a: Act, next: State) {
    ActEnabled(cfg, st, a) && next == Next(cfg, st, a)
  }

  datatype Trace = Trace(states: seq<State>, acts: seq<Act>)

  /** A run that ends in `st`. */
  ghost predicate EndsAt(cfg: Config, run: Trace, st: State) {
    IsRun(cfg, run.states, run.acts) && run.states[|run.acts|] == st
  }

  lemma Lengthen(cfg: Config, run: Trace, st: State, a: Act, next: State) returns (longer: Trace)
    requires EndsAt(cfg, run, st) && Follows(cfg, st, a, next)
    ensures EndsAt(cfg, longer, next) && longer == Trace(run.states + [next], run.acts + [a])
  {
    longer := Trace(run.states + [next], run.acts + [a]);
    forall i: nat | i < |longer.acts| ensures StepAt(cfg, longer.states, longer.acts, i) {
      if i < |run.acts| {
        assert StepAt(cfg, run.states, run.acts, i);
      }
    }
  }

  // ----- the invariant -----

  /** The goroutines the first `n` subscriptions add to process `i`'s WaitGroup. */
  function OutstandingOf(subs: seq<Sub>, i: nat): nat {
    if subs == [] then 0
    else OutstandingOf(subs[..|subs| - 1], i)
         + (if subs[|subs| - 1].inst == i then Outstanding(subs[|subs| - 1]) else 0)
  }

  ghost predicate SubOk(cfg: Config, st: State, k: nat) {
    && k < |st.subs| && st.subs[k].inst < |st.insts| && st.subs[k].log < |st.logs|
    && SubInv(cfg, st.insts[st.subs[k].inst].closing, st.logs[st.subs[k].log], k, st.subs[k])
  }

  ghost predicate WaitGroupsExact(st: State) {
    forall i :: 0 <= i < |st.insts| ==> st.insts[i].wg == OutstandingOf(st.subs, i)
  }

  ghost predicate LogsOk(cfg: Config, st: State) {
    forall t :: 0 <= t < |st.logs| ==> LogInv(cfg, st.logs[t])
  }

  ghost predicate SubsOk(cfg: Config, st: State) {
    forall k :: 0 <= k < |st.subs| ==> SubOk(cfg, st, k)
  }

  ghost predicate SysInv(cfg: Config, st: State) {
    LogsOk(cfg, st) && SubsOk(cfg, st) && WaitGroupsExact(st)
  }

  lemma {:induction false} OutstandingUpdate(subs: seq<Sub>, k: nat, sub: Sub, i: nat)
    requires k < |subs| && sub.inst == subs[k].inst
    ensures OutstandingOf(subs[k := sub], i) + (if sub.inst == i then Outstanding(subs[k]) else 0)
         == OutstandingOf(subs, i) + (if sub.inst == i then Outstanding(sub) else 0)
  {
    var after := subs[k := sub];
    if k == |subs| - 1 {
      assert after[..|subs| - 1] == subs[..|subs| - 1];
    } else {
      assert after[..|subs| - 1] == subs[..|subs| - 1][k := sub];
      OutstandingUpdate(subs[..|subs| - 1], k, sub, i);
    }
  }

  lemma {:induction false} OutstandingAtLeast(subs: seq<Sub>, k: nat)
    requires k < |subs|
    ensures Outstanding(subs[k]) <= OutstandingOf(subs, subs[k].inst)
  {
    if k < |subs| - 1 {
      OutstandingAtLeast(subs[..|subs| - 1], k);
    }
  }

  lemma {:induction false} OutstandingOfNew(subs: seq<Sub>, i: nat)
    requires forall k :: 0 <= k < |subs| ==> subs[k].inst < i
    ensures OutstandingOf(subs, i) == 0
  {
    if subs != [] {
      OutstandingOfNew(subs[..|subs| - 1], i);
    }
  }

  /** A subscription's step changes neither its process nor its stream. */
  lemma StepStaysHome(cfg: Config, env: Env, k: nat, v: View, a: SubAct)
    requires Enabled(cfg, env, v, a)
    ensures Step(cfg, env, k, v, a).sub.inst == v.sub.inst && Step(cfg, env, k, v, a).sub.log == v.sub.log
  {
  }

  /** The others keep their invariant when one stream moves on. */
  lemma OthersKept(cfg: Config, st: State, next: State, t: nat, actor: int)
    requires SysInv(cfg, st) && t < |st.logs| == |next.logs|
    requires |st.insts| <= |next.insts| && |st.subs| <= |next.subs|
    requires forall i :: 0 <= i < |st.insts| && st.insts[i].closing ==> next.insts[i].closing
    requires next.logs == st.logs[t := next.logs[t]]
    requires LogInv(cfg, next.logs[t]) && Extends(st.logs[t], next.logs[t], actor)
    ensures forall k :: 0 <= k < |st.subs| && k != actor && next.subs[k] == st.subs[k] ==> SubOk(cfg, next, k)
  {
    forall k | 0 <= k < |st.subs| && k != actor && next.subs[k] == st.subs[k]
      ensures SubOk(cfg, next, k)
    {
      var sub := st.subs[k];
      assert SubOk(cfg, st, k);
      if sub.log == t {
        Stable(cfg, st.insts[sub.inst].closing, next.insts[sub.inst].closing, st.logs[t], next.logs[t], actor, k, sub);
      } else {
        Unmoved(cfg, st.logs[sub.log]);
        Stable(cfg, st.insts[sub.inst].closing, next.insts[sub.inst].closing, st.logs[sub.log], st.logs[sub.log], -1, k, sub);
      }
    }
  }

  lemma Unmoved(cfg: Config, log: Log)
    requires LogInv(cfg, log)
    ensures Extends(log, log, -1)
  {
  }

  lemma LocalWaits(st: State, k: nat, v: View)
    requires WaitGroupsExact(st) && Live(st, k) && v.sub.inst == st.subs[k].inst
    requires v.wg + Outstanding(st.subs[k]) == st.insts[v.sub.inst].wg + Outstanding(v.sub)
    ensures WaitGroupsExact(WithView(st, k, v))
  {
    var next := WithView(st, k, v);
    forall j | 0 <= j < |next.insts| ensures next.insts[j].wg == OutstandingOf(next.subs, j) {
      OutstandingUpdate(st.subs, k, v.sub, j);
    }
  }

  lemma LocalKeeps(cfg: Config, st: State, k: nat, a: SubAct)
    requires SysInv(cfg, st) && ActEnabled(cfg, st, Local(k, a))
    ensures SysInv(cfg, Next(cfg, st, Local(k, a)))
    ensures Advances(cfg, EnvOf(st, k).closing, k, ViewOf(st, k), Step(cfg, EnvOf(st, k), k, ViewOf(st, k), a))
  {
    var env, v, t, i := EnvOf(st, k), ViewOf(st, k), st.subs[k].log, st.subs[k].inst;
    assert SubOk(cfg, st, k);
    OutstandingAtLeast(st.subs, k);
    StepAdvances(cfg, env, k, v, a);
    StepStaysHome(cfg, env, k, v, a);
    var v', next := Step(cfg, env, k, v, a), Next(cfg, st, Local(k, a));
    OthersKept(cfg, st, next, t, k);
    assert SubsOk(cfg, next) by {
      assert SubOk(cfg, next, k);
    }
    LocalWaits(st, k, v');
  }

  lemma NewSubKept(cfg: Config, closing: bool, log: Log, i: nat, t: nat, k: nat, claims: bool)
    ensures SubInv(cfg, closing, log, k, NewSub(i, t, claims)) && Outstanding(NewSub(i, t, claims)) == 1
  {
  }

  lemma SubscribeWaits(st: State, i: nat, t: nat, claims: bool)
    requires WaitGroupsExact(st) && i < |st.insts| && t < |st.logs|
    ensures WaitGroupsExact(st.(insts := st.insts[i := st.insts[i].(wg := st.insts[i].wg + 1)],
                                subs := st.subs + [NewSub(i, t, claims)]))
  {
    assert (st.subs + [NewSub(i, t, claims)])[..|st.subs|] == st.subs;
  }

  lemma SubscribeSubs(cfg: Config, st: State, i: nat, t: nat, claims: bool)
    requires SysInv(cfg, st) && ActEnabled(cfg, st, Subscribe(i, t, claims))
    requires LogInv(cfg, EnsureGroup(st.logs[t])) && Extends(st.logs[t], EnsureGroup(st.logs[t]), -1)
    ensures SubsOk(cfg, Next(cfg, st, Subscribe(i, t, claims)))
  {
    var next, k := Next(cfg, st, Subscribe(i, t, claims)), |st.subs|;
    OthersKept(cfg, st, next, t, -1);
    NewSubKept(cfg, st.insts[i].closing, next.logs[t], i, t, k, claims);
    forall j | 0 <= j < |next.subs| ensures SubOk(cfg, next, j) {
      if j < k {
        assert next.subs[j] == st.subs[j];
      }
    }
  }

  lemma SubscribeKeeps(cfg: Config, st: State, i: nat, t: nat, claims: bool)
    requires SysInv(cfg, st) && ActEnabled(cfg, st, Subscribe(i, t, claims))
    ensures SysInv(cfg, Next(cfg, st, Subscribe(i, t, claims)))
  {
    EnsureKeeps(cfg, st.logs[t], -1);
    SubscribeSubs(cfg, st, i, t, claims);
    SubscribeWaits(st, i, t, claims);
  }

  lemma SubsKnowTheirProcess(cfg: Config, st: State)
    requires SubsOk(cfg, st)
    ensures forall k :: 0 <= k < |st.subs| ==> st.subs[k].inst < |st.insts|
  {
    forall k | 0 <= k < |st.subs| ensures st.subs[k].inst < |st.insts| {
      assert SubOk(cfg, st, k);
    }
  }

  lemma StartKeeps(cfg: Config, st: State)
    requires SysInv(cfg, st)
    ensures SysInv(cfg, Next(cfg, st, StartProcess))
  {
    var next := Next(cfg, st, StartProcess);
    SubsKnowTheirProcess(cfg, st);
    OutstandingOfNew(st.subs, |st.insts|);
    forall k | 0 <= k < |st.subs| ensures SubOk(cfg, next, k) {
      assert SubOk(cfg, st, k) && next.insts[st.subs[k].inst] == st.insts[st.subs[k].inst];
    }
  }

  lemma FlagKeeps(cfg: Config, st: State, i: nat, inst: Inst)
    requires SysInv(cfg, st) && i < |st.insts|
    requires inst.wg == st.insts[i].wg && (st.insts[i].closing ==> inst.closing)
    ensures SysInv(cfg, st.(insts := st.insts[i := inst]))
  {
    var next := st.(insts := st.insts[i := inst]);
    forall k | 0 <= k < |st.subs| ensures SubOk(cfg, next, k) {
      assert SubOk(cfg, st, k);
      var sub := st.subs[k];
      Unmoved(cfg, st.logs[sub.log]);
      Stable(cfg, st.insts[sub.inst].closing, next.insts[sub.inst].closing, st.logs[sub.log], st.logs[sub.log], -1, k, sub);
    }
  }

  lemma StreamKeeps(cfg: Config, st: State, t: nat, log: Log)
    requires SysInv(cfg, st) && t < |st.logs| && LogInv(cfg, log) && Extends(st.logs[t], log, -1)
    ensures SysInv(cfg, st.(logs := st.logs[t := log]))
  {
    OthersKept(cfg, st, st.(logs := st.logs[t := log]), t, -1);
  }

  /** Every action of every goroutine and of the environment keeps the invariant. */
  lemma NextKeeps(cfg: Config, st: State, a: Act)
    requires SysInv(cfg, st) && ActEnabled(cfg, st, a)
    ensures SysInv(cfg, Next(cfg, st, a))
  {
    match a
    case Local(k, b) => LocalKeeps(cfg, st, k, b);
    case PublishEvent(t, d) =>
      EnvironmentKeeps(cfg, st.logs[t], d);
      StreamKeeps(cfg, st, t, Publish(st.logs[t], d));
    case LoseGroup(t) =>
      EnvironmentKeeps(cfg, st.logs[t], true);
      StreamKeeps(cfg, st, t, DestroyGroup(st.logs[t]));
    case LoseStream(t) =>
      EnvironmentKeeps(cfg, st.logs[t], true);
      StreamKeeps(cfg, st, t, DeleteStream(st.logs[t]));
    case StartProcess => StartKeeps(cfg, st);
    case Subscribe(i, t, c) => SubscribeKeeps(cfg, st, i, t, c);
    case SubscribeFailed(t) =>
      EnsureKeeps(cfg, st.logs[t], -1);
      StreamKeeps(cfg, st, t, EnsureGroup(st.logs[t]));
    case CancelCtx(i) => FlagKeeps(cfg, st, i, st.insts[i].(cancelled := true));
    case BeginClose(i) => FlagKeeps(cfg, st, i, st.insts[i].(closing := true));
    case Crash(i) => FlagKeeps(cfg, st, i, st.insts[i].(crashed := true));
    case ClockTick =>
      var next := Next(cfg, st, ClockTick);
      forall k | 0 <= k < |st.subs| ensures SubOk(cfg, next, k) {
        assert SubOk(cfg, st, k);
      }
  }

  lemma InitialKept(cfg: Config, st: State)
    requires Initial(st)
    ensures SysInv(cfg, st)
  {
    forall t | 0 <= t < |st.logs| ensures LogInv(cfg, st.logs[t]) {
      EmptyLogKept(cfg, st.logs[t]);
    }
  }

  lemma EmptyLogKept(cfg: Config, log: Log)
    requires log == EMPTY_LOG
    ensures LogInv(cfg, log)
  {
  }

  /** The invariant holds in every state of every run. */
  lemma {:induction false} Reachable(cfg: Config, states: seq<State>, acts: seq<Act>, i: nat)
    requires IsRun(cfg, states, acts) && i < |states|
    ensures SysInv(cfg, states[i])
  {
    if i == 0 {
      InitialKept(cfg, states[0]);
    } else {
      Reachable(cfg, states, acts, i - 1);
      assert StepAt(cfg, states, acts, i - 1);
      NextKeeps(cfg, states[i - 1], acts[i - 1]);
    }
  }

  /** The environment revives nobody and changes no subscription. */
  lemma LiveBefore(cfg: Config, st: State, a: Act, k: nat)
    requires SysInv(cfg, st) && ActEnabled(cfg, st, a) && !a.Local? && Live(Next(cfg, st, a), k) && k < |st.subs|
    ensures Live(st, k) && Next(cfg, st, a).subs[k] == st.subs[k]
  {
    assert SubOk(cfg, st, k);
  }
}
