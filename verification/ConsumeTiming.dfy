/** Timed exclusivity: the server's MINIDLE re-check keeps two deliveries of one entry apart, on any
    number of instances, as long as every delivery is faster than ClaimMinIdle. */
module ConsumeTiming {
  import opened RedisStream
  import opened Subscriber
  import opened SubscriberInvariant
  import opened ConsumeSystem

  /** The delivery is in flight: a loop or a waiter still owns it, or its handler may still run.
      A handler abandoned by Close counts. */
  predicate Busy(d: Delivery, stage: Stage) {
    stage in LOOP_STAGES || stage in SLOT_STAGES || (Sent(stage) && !d.run.Returned?)
  }

  ghost predicate BusyAt(st: State, k: nat, n: nat) {
    && Live(st, k)
    && n < |st.subs[k].deliveries| == |st.subs[k].stages|
    && Busy(st.subs[k].deliveries[n], st.subs[k].stages[n])
  }

  /** Every delivery of the stream in flight was read or claimed less than ClaimMinIdle ago. */
  ghost predicate Timely(cfg: Config, st: State, t: nat) {
    forall k: nat, n: nat :: BusyAt(st, k, n) && st.subs[k].log == t ==> st.now < st.subs[k].deliveries[n].since + cfg.minIdle
  }

  ghost predicate LatestGrant(log: Log, g: nat, id: nat) {
    forall h :: g < h < |log.grants| ==> log.grants[h].id != id
  }

  /** Every delivery in flight is the latest one of its entry. */
  ghost predicate BusyAreLatest(st: State, t: nat) {
    t < |st.logs| && forall k: nat, n: nat :: BusyAt(st, k, n) && st.subs[k].log == t ==>
      LatestGrant(st.logs[t], st.subs[k].deliveries[n].grant, st.subs[k].deliveries[n].id)
  }

  /** A step never puts a delivery that is over back in flight. */
  lemma BusyComesFrom(cfg: Config, env: Env, k: nat, v: View, a: SubAct, n: nat)
    requires Enabled(cfg, env, v, a) && |v.sub.deliveries| == |v.sub.stages| && n < |v.sub.deliveries|
    ensures var next := Step(cfg, env, k, v, a).sub;
            && |next.deliveries| == |next.stages| && n < |next.deliveries|
            && next.deliveries[n].grant == v.sub.deliveries[n].grant
            && next.deliveries[n].id == v.sub.deliveries[n].id
            && (Busy(next.deliveries[n], next.stages[n]) ==> Busy(v.sub.deliveries[n], v.sub.stages[n]))
  {
    match a
    case OfReader(r) => assert ReadStep(cfg, env, k, v, r).sub == Step(cfg, env, k, v, a).sub;
    case OfClaimer(c) => assert ClaimStep(cfg, env, k, v, c).sub == Step(cfg, env, k, v, a).sub;
    case OfEmit(who, e) => assert EmitStep(env, v, who, e).sub == Step(cfg, env, k, v, a).sub;
    case OfEnd(z) =>
    case OfMessage(m, b) =>
  }

  /** What a step adds: at most one grant, and a delivery exactly for a grant whose reply arrived. */
  lemma GrowthOf(cfg: Config, env: Env, k: nat, v: View, a: SubAct)
    requires Enabled(cfg, env, v, a) && |v.sub.deliveries| == |v.sub.stages|
    ensures var next := Step(cfg, env, k, v, a);
            && v.log.grants <= next.log.grants && |next.log.grants| <= |v.log.grants| + 1
            && (|next.sub.deliveries| == |v.sub.deliveries| ||
                (|next.sub.deliveries| == |v.sub.deliveries| + 1
                 && next.sub.deliveries[|v.sub.deliveries|].grant == |v.log.grants| == |next.log.grants| - 1))
            && (|next.log.grants| == |v.log.grants| + 1 ==>
                 var id := next.log.grants[|v.log.grants|].id;
                 IsNext(v.log, id) || Claimable(v.log, env.now, cfg.minIdle, id))
  {
  }

  /** The server hands out no new delivery of an entry that is in flight. */
  lemma NoGrantWhileBusy(cfg: Config, st: State, t: nat, id: nat, k: nat, n: nat)
    requires SysInv(cfg, st) && Timely(cfg, st, t) && BusyAreLatest(st, t) && st.logs[t].losses == 0
    requires BusyAt(st, k, n) && st.subs[k].log == t && st.subs[k].deliveries[n].id == id
    ensures !IsNext(st.logs[t], id) && !Claimable(st.logs[t], st.now, cfg.minIdle, id)
  {
    var log, d := st.logs[t], st.subs[k].deliveries[n];
    assert LogInv(cfg, log) && SubOk(cfg, st, k);
    assert Granted(cfg, log, k, d) && LatestGrant(log, d.grant, id);
    assert log.grants[d.grant].id == id;
  }

  /** At most one grant was added, and not for `id`. */
  lemma NoLaterGrant(cfg: Config, now: nat, log: Log, next: Log, g: nat, id: nat)
    requires log.grants <= next.grants && |next.grants| <= |log.grants| + 1 && LatestGrant(log, g, id)
    requires !IsNext(log, id) && !Claimable(log, now, cfg.minIdle, id)
    requires |next.grants| == |log.grants| + 1 ==>
               var added := next.grants[|log.grants|].id;
               IsNext(log, added) || Claimable(log, now, cfg.minIdle, added)
    ensures LatestGrant(next, g, id)
  {
  }

  lemma LogAfter(cfg: Config, st: State, k: nat, a: SubAct, t: nat)
    requires ActEnabled(cfg, st, Local(k, a)) && t < |st.logs|
    ensures Next(cfg, st, Local(k, a)).logs[t]
         == if st.subs[k].log == t then Step(cfg, EnvOf(st, k), k, ViewOf(st, k), a).log else st.logs[t]
  {
  }

  /** A delivery in flight before and after a step stays the latest one of its entry. */
  lemma StaysLatest(cfg: Config, st: State, k: nat, a: SubAct, t: nat, j: nat, n: nat)
    requires SysInv(cfg, st) && ActEnabled(cfg, st, Local(k, a)) && Timely(cfg, st, t)
    requires BusyAreLatest(st, t) && st.logs[t].losses == 0 && BusyAt(st, j, n) && st.subs[j].log == t
    ensures LatestGrant(Next(cfg, st, Local(k, a)).logs[t], st.subs[j].deliveries[n].grant, st.subs[j].deliveries[n].id)
  {
    assert SubOk(cfg, st, k);
    var env, v, d := EnvOf(st, k), ViewOf(st, k), st.subs[j].deliveries[n];
    LogAfter(cfg, st, k, a, t);
    assert LatestGrant(st.logs[t], d.grant, d.id);
    if st.subs[k].log == t {
      GrowthOf(cfg, env, k, v, a);
      NoGrantWhileBusy(cfg, st, t, d.id, j, n);
      NoLaterGrant(cfg, st.now, v.log, Step(cfg, env, k, v, a).log, d.grant, d.id);
    }
  }

  /** A delivery in flight after a step was in flight before it, or the step received it. */
  lemma BusyBefore(cfg: Config, st: State, k: nat, a: SubAct, j: nat, n: nat)
    requires SysInv(cfg, st) && ActEnabled(cfg, st, Local(k, a)) && BusyAt(Next(cfg, st, Local(k, a)), j, n)
    ensures var next := Next(cfg, st, Local(k, a)).subs[j];
            && j < |st.subs| && st.subs[j].log == next.log
            && ((j == k && n >= |st.subs[k].deliveries|) ||
                (BusyAt(st, j, n) && st.subs[j].deliveries[n].grant == next.deliveries[n].grant
                 && st.subs[j].deliveries[n].id == next.deliveries[n].id))
  {
    assert SubOk(cfg, st, k);
    if j == k {
      StepStaysHome(cfg, EnvOf(st, k), k, ViewOf(st, k), a);
      if n < |st.subs[k].deliveries| {
        BusyComesFrom(cfg, EnvOf(st, k), k, ViewOf(st, k), a, n);
      }
    }
  }

  /** A delivery just received has the latest grant of all. */
  lemma ReceivedIsLatest(cfg: Config, env: Env, k: nat, v: View, a: SubAct, n: nat, id: nat)
    requires Enabled(cfg, env, v, a) && |v.sub.deliveries| == |v.sub.stages|
    requires |v.sub.deliveries| <= n < |Step(cfg, env, k, v, a).sub.deliveries|
    ensures LatestGrant(Step(cfg, env, k, v, a).log, Step(cfg, env, k, v, a).sub.deliveries[n].grant, id)
  {
    GrowthOf(cfg, env, k, v, a);
  }

  lemma LocalKeepsLatest(cfg: Config, st: State, k: nat, a: SubAct, t: nat)
    requires SysInv(cfg, st) && ActEnabled(cfg, st, Local(k, a)) && Timely(cfg, st, t)
    requires BusyAreLatest(st, t) && st.logs[t].losses == 0
    ensures BusyAreLatest(Next(cfg, st, Local(k, a)), t)
  {
    var next := Next(cfg, st, Local(k, a));
    forall j: nat, n: nat | BusyAt(next, j, n) && next.subs[j].log == t
      ensures LatestGrant(next.logs[t], next.subs[j].deliveries[n].grant, next.subs[j].deliveries[n].id)
    {
      BusyBefore(cfg, st, k, a, j, n);
      if j == k && n >= |st.subs[k].deliveries| {
        assert SubOk(cfg, st, k);
        LogAfter(cfg, st, k, a, t);
        ReceivedIsLatest(cfg, EnvOf(st, k), k, ViewOf(st, k), a, n, next.subs[j].deliveries[n].id);
      } else {
        StaysLatest(cfg, st, k, a, t, j, n);
      }
    }
  }

  lemma StepKeepsLatest(cfg: Config, st: State, a: Act, t: nat)
    requires SysInv(cfg, st) && ActEnabled(cfg, st, a) && Timely(cfg, st, t)
    requires BusyAreLatest(st, t) && st.logs[t].losses == 0
    ensures BusyAreLatest(Next(cfg, st, a), t)
  {
    if a.Local? {
      LocalKeepsLatest(cfg, st, a.k, a.a, t);
    } else {
      var next := Next(cfg, st, a);
      assert next.logs[t].grants == st.logs[t].grants;
      forall k: nat, n: nat | BusyAt(next, k, n) && next.subs[k].log == t
        ensures LatestGrant(next.logs[t], next.subs[k].deliveries[n].grant, next.subs[k].deliveries[n].id)
      {
        assert k < |st.subs|;
        LiveBefore(cfg, st, a, k);
        assert BusyAt(st, k, n);
      }
    }
  }

  lemma {:induction false} RunKeepsLatest(cfg: Config, states: seq<State>, acts: seq<Act>, i: nat, t: nat)
    requires IsRun(cfg, states, acts) && i < |states| && t < |states[0].logs|
    requires forall j :: 0 <= j < i ==> Timely(cfg, states[j], t)
    requires forall j :: 0 <= j < i ==> t < |states[j].logs| && states[j].logs[t].losses == 0
    ensures BusyAreLatest(states[i], t)
  {
    if i == 0 {
      assert states[0].subs == [];
    } else {
      RunKeepsLatest(cfg, states, acts, i - 1, t);
      Reachable(cfg, states, acts, i - 1);
      assert StepAt(cfg, states, acts, i - 1);
      StepKeepsLatest(cfg, states[i - 1], acts[i - 1], t);
    }
  }

  /** While the stream's group is not lost and its deliveries in flight are younger than ClaimMinIdle, no entry is
      in two deliveries at once, whichever instances they are on and however stale their snapshots. */
  lemma TimedExclusivity(cfg: Config, states: seq<State>, acts: seq<Act>, i: nat, t: nat,
                         k1: nat, n1: nat, k2: nat, n2: nat)
    requires IsRun(cfg, states, acts) && i < |states| && t < |states[0].logs|
    requires forall j :: 0 <= j < i ==> Timely(cfg, states[j], t)
    requires forall j :: 0 <= j < i ==> t < |states[j].logs| && states[j].logs[t].losses == 0
    requires BusyAt(states[i], k1, n1) && BusyAt(states[i], k2, n2)
    requires states[i].subs[k1].log == t == states[i].subs[k2].log
    requires states[i].subs[k1].deliveries[n1].id == states[i].subs[k2].deliveries[n2].id
    ensures k1 == k2 && n1 == n2
  {
    RunKeepsLatest(cfg, states, acts, i, t);
    Reachable(cfg, states, acts, i);
    var st := states[i];
    assert SubOk(cfg, st, k1) && SubOk(cfg, st, k2);
    var d1, d2 := st.subs[k1].deliveries[n1], st.subs[k2].deliveries[n2];
    assert Granted(cfg, st.logs[t], k1, d1) && Granted(cfg, st.logs[t], k2, d2);
    assert LatestGrant(st.logs[t], d1.grant, d1.id) && LatestGrant(st.logs[t], d2.grant, d2.id);
    assert d1.grant == d2.grant;
  }
}
