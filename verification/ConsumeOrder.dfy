/** Per-stream order at Concurrency 1. */
module ConsumeOrder {
  import opened Basics
  import opened RedisStream
  import opened Subscriber
  import opened SubscriberInvariant
  import opened ConsumeSystem
  import opened ConsumeTiming

  predicate Active(stage: Stage) {
    stage in LOOP_STAGES || stage in SLOT_STAGES
  }

  ghost predicate OnlyLastActive(sub: Sub) {
    forall m :: 0 <= m < |sub.stages| - 1 ==> !Active(sub.stages[m])
  }

  /** With one slot, a loop that holds it and is not emitting finds every earlier delivery over. */
  lemma HolderIsAlone(cfg: Config, sub: Sub)
    requires Controlled(cfg, sub) && cfg.concurrency == 1
    requires sub.reader.RRead? || sub.claimer.CClaim?
    ensures forall m :: 0 <= m < |sub.stages| ==> !Active(sub.stages[m])
  {
    forall m | 0 <= m < |sub.stages| ensures !Active(sub.stages[m]) {
      if sub.stages[m] in SLOT_STAGES {
        CountPositive(sub.stages, m, SLOT_STAGES);
      }
    }
  }

  lemma StepKeepsOrder(cfg: Config, env: Env, k: nat, v: View, a: SubAct)
    requires Controlled(cfg, v.sub) && cfg.concurrency == 1 && Enabled(cfg, env, v, a) && OnlyLastActive(v.sub)
    ensures OnlyLastActive(Step(cfg, env, k, v, a).sub)
  {
    if v.sub.reader.RRead? || v.sub.claimer.CClaim? {
      HolderIsAlone(cfg, v.sub);
    }
  }

  lemma {:induction false} RunKeepsOrder(cfg: Config, states: seq<State>, acts: seq<Act>, i: nat, k: nat)
    requires IsRun(cfg, states, acts) && i < |states| && k < |states[i].subs| && cfg.concurrency == 1
    ensures OnlyLastActive(states[i].subs[k])
  {
    if i > 0 {
      Reachable(cfg, states, acts, i - 1);
      var st, a := states[i - 1], acts[i - 1];
      assert StepAt(cfg, states, acts, i - 1);
      if k < |st.subs| {
        RunKeepsOrder(cfg, states, acts, i - 1, k);
        assert SubOk(cfg, st, k);
        if a.Local? && a.k == k {
          StepKeepsOrder(cfg, EnvOf(st, k), k, ViewOf(st, k), a.a);
        }
      }
    }
  }

  /** At Concurrency 1, until Close begins: when a subscription has received a delivery, every earlier one
      is over, its handler and all its immediate retries included; and while the group is not lost,
      first deliveries come in stream order. */
  lemma OrderedAtConcurrencyOne(cfg: Config, states: seq<State>, acts: seq<Act>, i: nat, k: nat, m: nat, n: nat)
    requires IsRun(cfg, states, acts) && i < |states| && k < |states[i].subs| && cfg.concurrency == 1
    requires m < n < |states[i].subs[k].deliveries|
    ensures |states[i].subs[k].stages| == |states[i].subs[k].deliveries|
    ensures states[i].subs[k].inst < |states[i].insts| && states[i].subs[k].log < |states[i].logs|
    ensures var sub := states[i].subs[k];
            && (!states[i].insts[sub.inst].closing ==> !Busy(sub.deliveries[m], sub.stages[m]))
            && (states[i].logs[sub.log].losses == 0 && sub.deliveries[m].isRead && sub.deliveries[n].isRead ==>
                 sub.deliveries[m].id < sub.deliveries[n].id)
  {
    Reachable(cfg, states, acts, i);
    RunKeepsOrder(cfg, states, acts, i, k);
    assert SubOk(cfg, states[i], k);
    var sub := states[i].subs[k];
    var log, closing := states[i].logs[sub.log], states[i].insts[sub.inst].closing;
    assert LogInv(cfg, log);
    assert Kept(cfg, closing, log, k, sub.deliveries[m], sub.stages[m]);
    assert Kept(cfg, closing, log, k, sub.deliveries[n], sub.stages[n]);
  }
}
