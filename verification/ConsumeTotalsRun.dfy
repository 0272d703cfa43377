/** The bound on all dispatches of an entry is tight: for every cap, every Concurrency and every number of instances a run
    without failures reaches it. */
module ConsumeTotalsRun {
  import opened Basics
  import opened RedisStream
  import opened Subscriber
  import opened ConsumeSystem
  import opened ConsumeProgress
  import opened ConsumePoison
  import opened ConsumeTotals
  import opened ConsumeStale
  import opened ConsumeOverlap
  import opened ConsumeStaleRun

  // ----- one subscription -----

  /** Entry 1 is the only pending one. */
  predicate OnlyPending(log: Log) {
    && log.group.Some? && log.group.value.pel.Keys == {1} && log.undecodable == {} && log.losses == 0
    && |log.grants| == |log.calls|
  }

  lemma {:induction false} PlayJoins(cfg: Config, env: Env, k: nat, v: View, acts: seq<SubAct>, more: seq<SubAct>)
    requires Play(cfg, env, k, v, acts).Some?
    ensures Play(cfg, env, k, v, acts + more) == Play(cfg, env, k, Play(cfg, env, k, v, acts).value, more)
    decreases |acts|
  {
    if acts == [] {
      assert acts + more == more;
    } else {
      assert (acts + more)[1..] == acts[1..] + more;
      PlayJoins(cfg, env, k, Step(cfg, env, k, v, acts[0]), acts[1..], more);
    }
  }

  /** Claim the entry with the sweep's only line, and begin its dispatch. */
  function BeginPath(count: nat, n: nat): seq<SubAct> {
    ClaimPath([Snapshot(1, count)]) + ([OfMessage(n, BeginDispatch)] + [OfClaimer(ClaimResume)])
  }

  /** The view after that: the delivery is under way and keeps its slot. */
  function Begun(env: Env, k: nat, v: View): View
    requires OnlyPending(v.log)
  {
    var count := v.log.group.value.pel[1].count;
    var d := Delivery(|v.log.grants|, 1, count + 1, env.now, false, Running(0, NoLetter), true, false, false);
    View(Claim(v.log, env.now, 1, k, count + 1),
         v.sub.(deliveries := v.sub.deliveries + [d], stages := v.sub.stages + [Waiting], sem := v.sub.sem + 1),
         v.wg + 1)
  }

  lemma BeginsAgain(cfg: Config, env: Env, k: nat, v: View)
    requires OnlyPending(v.log) && cfg.minIdle == 1 && v.log.group.value.pel[1].at < env.now
    requires v.sub.claimer.CTick? && v.sub.sem < cfg.concurrency && |v.sub.deliveries| == |v.sub.stages|
    ensures Play(cfg, env, k, v, BeginPath(v.log.group.value.pel[1].count, |v.sub.deliveries|)) == Some(Begun(env, k, v))
  {
    var n, reply := |v.sub.deliveries|, [Snapshot(1, v.log.group.value.pel[1].count)];
    assert reply[0].id == 1 && reply[1..] == [];
    PendingIsReclaimed(cfg, env, k, v, reply);
    var begin, resume := OfMessage(n, BeginDispatch), OfClaimer(ClaimResume);
    var v1 := Reclaimed(env, k, v, 1, reply[0].count + 1, []);
    PlayJoins(cfg, env, k, v, ClaimPath(reply), [begin] + [resume]);
    BeginsDispatch(cfg, env, k, v1, n);
    var d := v1.sub.deliveries[n].(run := Running(0, NoLetter), begun := true);
    var v2 := MessageAt(v1, n, d, Waiting);
    PlayOne(cfg, env, k, v1, begin, [resume]);
    PlayOne(cfg, env, k, v2, resume, []);
    assert [resume] + [] == [resume];
    assert v2.sub.deliveries == v.sub.deliveries + [d] && v2.sub.stages == v.sub.stages + [Waiting];
  }

  lemma BeginsDispatch(cfg: Config, env: Env, k: nat, v: View, n: nat)
    requires n < |v.sub.deliveries| == |v.sub.stages| && v.sub.stages[n].Waiting? && v.sub.deliveries[n].run.Idle?
    requires v.sub.deliveries[n].grant < |v.log.grants| == |v.log.calls|
    ensures var d := v.sub.deliveries[n];
            && Enabled(cfg, env, v, OfMessage(n, BeginDispatch))
            && Step(cfg, env, k, v, OfMessage(n, BeginDispatch))
               == MessageAt(v, n, d.(run := Running(0, NoLetter), begun := true), Waiting)
  {
    assert v == MessageAt(v, n, v.sub.deliveries[n], Waiting);
    MessageStep(cfg, env, k, v, n, v.sub.deliveries[n], Waiting, BeginDispatch);
  }

  /** A claimed message of the entry goes to the router, is nacked, and the sweep ends. */
  function NackedPath(n: nat): seq<SubAct> {
    ([OfEmit(ClaimLoop, Decode)] + [OfEmit(ClaimLoop, Send)]) + (NackPath(n) + [OfClaimer(ClaimResume)])
  }

  /** The loop emits its latest delivery, of attempt at most the cap, and has nothing else to do. */
  predicate Emits(cfg: Config, v: View, before: seq<Stage>) {
    && v.sub.stages == before + [Decoding] && |v.sub.deliveries| == |before| + 1
    && v.sub.claimer == CEmit(|before|, []) && OnlyPending(v.log) && v.sub.sem == 1
    && var d := v.sub.deliveries[|before|];
       d.id == 1 && d.grant < |v.log.calls| && d.run.Idle? && !d.begun && 1 <= d.attempt <= cfg.cap
  }

  function AfterNack(v: View, before: seq<Stage>): View
    requires |before| < |v.sub.deliveries| && v.sub.deliveries[|before|].grant < |v.log.calls|
  {
    var n := |before|;
    var d := v.sub.deliveries[n].(run := Returned(false), begun := true, ctxDone := true);
    View(Invoke(v.log, d.grant),
         v.sub.(deliveries := v.sub.deliveries[n := d], stages := before + [Gone], sem := 0, claimer := CTick), v.wg)
  }

  lemma NacksLatest(cfg: Config, env: Env, k: nat, v: View, before: seq<Stage>)
    requires Emits(cfg, v, before)
    ensures Play(cfg, env, k, v, NackedPath(|before|)) == Some(AfterNack(v, before))
  {
    var n, resume := |before|, OfClaimer(ClaimResume);
    var v1 := View(v.log, v.sub.(stages := before + [Waiting], claimer := CSweep([])), v.wg + 1);
    HandsOver(cfg, env, k, v, ClaimLoop, before);
    PlayJoins(cfg, env, k, v, [OfEmit(ClaimLoop, Decode)] + [OfEmit(ClaimLoop, Send)], NackPath(n) + [resume]);
    FailureIsNacked(cfg, env, k, v1, n);
    PlayJoins(cfg, env, k, v1, NackPath(n), [resume]);
    PlayOne(cfg, env, k, Nacked(v1, n), resume, []);
    assert [resume] + [] == [resume];
    assert v1.sub.stages[n := Gone] == before + [Gone];
  }

  // ----- the system -----

  /** `n` processes that are up, each with one subscription of the stream. */
  ghost predicate AllUp(st: State, n: nat) {
    && |st.logs| == 1 && |st.insts| == n == |st.subs| && OnlyPending(st.logs[0])
    && st.logs[0].group.value.pel[1].at <= st.now
    && (forall i :: 0 <= i < n ==> !st.insts[i].closing && !st.insts[i].cancelled && !st.insts[i].crashed)
    && (forall i :: 0 <= i < n ==>
          st.subs[i].inst == i && st.subs[i].log == 0 && |st.subs[i].deliveries| == |st.subs[i].stages|)
  }

  /** Subscription `k` has dispatched the entry once more and waits for its next tick with `sem` slots taken; the other
      subscriptions are as they were. */
  ghost predicate DispatchedOnce(st: State, next: State, k: nat, sem: nat) {
    && k < |st.subs| && |next.subs| == |st.subs| && next.subs == st.subs[k := next.subs[k]]
    && next.subs[k].claimer.CTick? && next.subs[k].sem == sem
    && TotalDispatches(next.subs, 0, 1) == TotalDispatches(st.subs, 0, 1) + 1
  }

  lemma {:induction false} SameDispatches(ds: seq<Delivery>, more: seq<Delivery>, id: nat, upTo: nat)
    requires upTo <= |ds| && upTo <= |more| && ds[..upTo] == more[..upTo]
    ensures TimesDispatched(ds, id, upTo) == TimesDispatched(more, id, upTo)
  {
    if upTo > 0 {
      assert ds[..upTo - 1] == ds[..upTo][..upTo - 1] && ds[upTo - 1] == ds[..upTo][upTo - 1];
      assert more[upTo - 1] == more[..upTo][upTo - 1];
      SameDispatches(ds, more, id, upTo - 1);
    }
  }

  lemma {:induction false} TotalUpdate(subs: seq<Sub>, k: nat, sub: Sub, id: nat)
    requires k < |subs| && subs[k].log == 0 == sub.log
    ensures TotalDispatches(subs[k := sub], 0, id) + TimesDispatched(subs[k].deliveries, id, |subs[k].deliveries|)
         == TotalDispatches(subs, 0, id) + TimesDispatched(sub.deliveries, id, |sub.deliveries|)
  {
    var after := subs[k := sub];
    if k == |subs| - 1 {
      assert after[..|subs| - 1] == subs[..|subs| - 1];
    } else {
      assert after[..|subs| - 1] == subs[..|subs| - 1][k := sub];
      TotalUpdate(subs[..|subs| - 1], k, sub, id);
    }
  }

  lemma NackCounts(v: View, before: seq<Stage>, cfg: Config)
    requires Emits(cfg, v, before)
    ensures var ds, ds' := v.sub.deliveries, AfterNack(v, before).sub.deliveries;
            TimesDispatched(ds', 1, |ds'|) == TimesDispatched(ds, 1, |ds|) + 1
  {
    var ds, ds', n := v.sub.deliveries, AfterNack(v, before).sub.deliveries, |before|;
    assert ds[..n] == ds'[..n];
    SameDispatches(ds, ds', 1, n);
  }

  lemma BeginCounts(env: Env, k: nat, v: View)
    requires OnlyPending(v.log)
    ensures var ds, ds' := v.sub.deliveries, Begun(env, k, v).sub.deliveries;
            TimesDispatched(ds', 1, |ds'|) == TimesDispatched(ds, 1, |ds|) + 1
  {
    var ds, ds' := v.sub.deliveries, Begun(env, k, v).sub.deliveries;
    assert ds[..|ds|] == ds'[..|ds|];
    SameDispatches(ds, ds', 1, |ds|);
  }

  lemma PathsAreClean(count: nat, n: nat)
    ensures AllClean(BeginPath(count, n)) && AllClean(NackedPath(n))
  {
  }

  lemma NacksNext(cfg: Config, run: Trace, st: State, n: nat, k: nat, before: seq<Stage>)
    returns (longer: Trace, next: State)
    requires EndsIn(cfg, run, st) && AllUp(st, n) && k < n && Emits(cfg, ViewOf(st, k), before)
    ensures EndsIn(cfg, longer, next) && AllUp(next, n) && DispatchedOnce(st, next, k, 0)
    ensures next.logs[0].group == st.logs[0].group && |next.logs[0].calls| == |st.logs[0].calls|
  {
    var v := ViewOf(st, k);
    NacksLatest(cfg, EnvOf(st, k), k, v, before);
    PathsAreClean(0, |before|);
    longer := SystemPlays(cfg, run, st, k, NackedPath(|before|));
    next := WithView(st, k, AfterNack(v, before));
    NackCounts(v, before, cfg);
    TotalUpdate(st.subs, k, next.subs[k], 1);
  }

  lemma BeginsNext(cfg: Config, run: Trace, st: State, n: nat, k: nat) returns (longer: Trace, next: State)
    requires EndsIn(cfg, run, st) && AllUp(st, n) && k < n && cfg.minIdle == 1
    requires st.subs[k].claimer.CTick? && st.subs[k].sem < cfg.concurrency
    ensures EndsIn(cfg, longer, next) && AllUp(next, n) && DispatchedOnce(st, next, k, st.subs[k].sem + 1)
  {
    var later := st.(now := st.now + 1);
    longer := OneMoreStep(cfg, run, st, ClockTick, later);
    var v := ViewOf(later, k);
    var count := v.log.group.value.pel[1].count;
    BeginsAgain(cfg, EnvOf(later, k), k, v);
    PathsAreClean(count, |v.sub.deliveries|);
    longer := SystemPlays(cfg, longer, later, k, BeginPath(count, |v.sub.deliveries|));
    next := WithView(later, k, Begun(EnvOf(later, k), k, v));
    BeginCounts(EnvOf(later, k), k, v);
    TotalUpdate(st.subs, k, next.subs[k], 1);
  }

  // ----- a run that reaches the bound -----

  /** The first `k` instances have filled all their slots, the others none. */
  ghost predicate Filled(cfg: Config, st: State, n: nat, k: nat) {
    && AllUp(st, n) && k <= n
    && forall i :: 0 <= i < n ==> st.subs[i].claimer.CTick? && st.subs[i].sem == if i < k then cfg.concurrency else 0
  }

  lemma {:induction false} FillsNext(cfg: Config, run: Trace, st: State, n: nat, k: nat, slots: nat)
    returns (longer: Trace, next: State)
    requires EndsIn(cfg, run, st) && Filled(cfg, st, n, k) && k < n && cfg.minIdle == 1 && slots <= cfg.concurrency
    ensures EndsIn(cfg, longer, next) && AllUp(next, n) && next.subs == st.subs[k := next.subs[k]]
    ensures next.subs[k].claimer.CTick? && next.subs[k].sem == slots
    ensures TotalDispatches(next.subs, 0, 1) == TotalDispatches(st.subs, 0, 1) + slots
  {
    if slots == 0 {
      longer, next := run, st;
    } else {
      longer, next := FillsNext(cfg, run, st, n, k, slots - 1);
      longer, next := BeginsNext(cfg, longer, next, n, k);
    }
  }

  lemma {:induction false} AllFill(cfg: Config, run: Trace, st: State, n: nat, k: nat) returns (longer: Trace, next: State)
    requires EndsIn(cfg, run, st) && Filled(cfg, st, n, 0) && k <= n && cfg.minIdle == 1
    ensures EndsIn(cfg, longer, next) && Filled(cfg, next, n, k)
    ensures TotalDispatches(next.subs, 0, 1) == TotalDispatches(st.subs, 0, 1) + cfg.concurrency * k
  {
    if k == 0 {
      longer, next := run, st;
    } else {
      longer, next := AllFill(cfg, run, st, n, k - 1);
      longer, next := FillsNext(cfg, longer, next, n, k - 1, cfg.concurrency);
      TimesOneMore(cfg.concurrency, k - 1);
    }
  }

  /** Of the instances that claimed with the stale line the first `k` have nacked. */
  ghost predicate Nacking(s: Scene, st: State, k: nat) {
    && AllUp(st, s.n) && |st.logs[0].calls| == s.c + s.n && k <= s.n
    && (forall i :: 0 <= i < k ==> st.subs[i].claimer.CTick? && st.subs[i].sem == 0)
    && (forall i: nat :: k <= i < s.n ==> st.subs[i] == Member(s, i, true, true))
  }

  lemma StartsNacking(s: Scene)
    ensures Nacking(s, Stale(s, s.n, s.n), 0) && TotalDispatches(Stale(s, s.n, s.n).subs, 0, 1) == s.c
  {
    var subs := Members(s, s.n, s.n);
    MembersDispatch(s, s.n, s.n, s.n);
    assert subs[..s.n] == subs;
  }

  lemma StartsFilling(s: Scene)
    ensures Filled(Cfg(s), Stale(s, 0, 0), s.n, 0) && TotalDispatches(Stale(s, 0, 0).subs, 0, 1) == s.c
  {
    var subs := Members(s, 0, 0);
    MembersDispatch(s, 0, 0, s.n);
    assert subs[..s.n] == subs;
  }

  lemma {:induction false} AllNack(s: Scene, k: nat) returns (run: Trace, st: State)
    requires k <= s.n && s.c < s.cap
    ensures EndsIn(Cfg(s), run, st) && Nacking(s, st, k)
    ensures TotalDispatches(st.subs, 0, 1) == s.c + k
  {
    if k == 0 {
      run := ClaimedReached(s, s.n);
      st := Stale(s, s.n, s.n);
      StartsNacking(s);
    } else {
      run, st := AllNack(s, k - 1);
      assert st.subs[k - 1] == Member(s, k - 1, true, true);
      run, st := NacksNext(Cfg(s), run, st, s.n, k - 1, Fresh(s, k - 1).stages);
    }
  }

  lemma MemberDispatches(s: Scene, i: nat, scanned: bool, claimed: bool)
    ensures var ds := Member(s, i, scanned, claimed).deliveries;
            TimesDispatched(ds, 1, |ds|) == if i == 0 then s.c else 0
  {
    var ds, base := Member(s, i, scanned, claimed).deliveries, Fresh(s, i).deliveries;
    assert ds[..|base|] == base[..|base|];
    SameDispatches(ds, base, 1, |base|);
    if i == 0 {
      AllDispatched(s.cap, s.c, s.c);
    }
  }

  lemma {:induction false} MembersDispatch(s: Scene, scanned: nat, claimed: nat, j: nat)
    requires j <= s.n
    ensures TotalDispatches(Members(s, scanned, claimed)[..j], 0, 1) == if j == 0 then 0 else s.c
  {
    if j > 0 {
      var subs := Members(s, scanned, claimed);
      MembersDispatch(s, scanned, claimed, j - 1);
      MemberDispatches(s, j - 1, j - 1 < scanned, j - 1 < claimed);
      assert subs[..j][..j - 1] == subs[..j - 1];
    }
  }

  /** All within the cap are nacked: at a cap of 1 that is the first delivery, from 2 on also one per instance with the
      line they all scanned. */
  lemma CapUsedUp(cap: nat, concurrency: nat, n: nat) returns (run: Trace, st: State)
    requires 1 <= cap && 1 <= concurrency && 1 <= n
    ensures EndsIn(Tight(cap, concurrency), run, st) && Filled(Tight(cap, concurrency), st, n, 0)
    ensures TotalDispatches(st.subs, 0, 1) == if cap == 1 then 1 else cap - 1 + n
  {
    if cap == 1 {
      run := JoinedReached(Setting(1, concurrency, 1, n));
      st := Stale(Setting(1, concurrency, 1, n), 0, 0);
      StartsFilling(Setting(1, concurrency, 1, n));
    } else {
      run, st := AllNack(Setting(cap, concurrency, cap - 1, n), n);
    }
  }

  /** For every MaxDeliveryAttempts, every Concurrency and every number of instances, a run without failures reaches the
      bound on all dispatches of an entry. */
  lemma TotalIsReached(cap: nat, concurrency: nat, n: nat) returns (run: Trace, st: State)
    requires 1 <= cap && 1 <= concurrency && 1 <= n
    ensures EndsIn(Tight(cap, concurrency), run, st) && |run.states[0].logs| == 1 && Subscribed(st.subs, 0) == n
    ensures AllSteady(Tight(cap, concurrency), run.states, run.acts, |run.acts|, 0)
    ensures TotalDispatches(st.subs, 0, 1) == cap + Extra(cap, st, 0) + concurrency * Subscribed(st.subs, 0)
  {
    var cfg := Tight(cap, concurrency);
    run, st := CapUsedUp(cap, concurrency, n);
    run, st := AllFill(cfg, run, st, n, n);
    AllSubscribed(st.subs);
    LogsConstant(cfg, run.states, run.acts, 0, |run.acts|);
    forall k: nat | k < |st.subs| ensures SteadyRun(cfg, run.states, run.acts, |run.acts|, k) {
      EndsSteady(cfg, run, st, k);
    }
  }
}
