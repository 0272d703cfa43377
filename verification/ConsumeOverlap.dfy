/** The bound on dispatches is tight: for every cap and every Concurrency a run of one instance, in which nothing is
    lost, refused, crashed or closed, dispatches an entry MaxDeliveryAttempts + Concurrency times. */
module ConsumeOverlap {
  import opened Basics
  import opened RedisStream
  import opened Subscriber
  import opened ConsumeSystem
  import opened ConsumeTiming
  import opened ConsumeSafety
  import opened ConsumeAttempts
  import opened ConsumePoison
  import opened ConsumeProgress

  /** No process crashes or begins to close, and every dead letter and XACK succeeds. */
  predicate Clean(a: Act) {
    match a
    case Crash(_) => false
    case BeginClose(_) => false
    case Local(_, b) => CleanStep(b)
    case _ => true
  }

  /** A run without failures that ends in `st`. */
  ghost predicate EndsIn(cfg: Config, run: Trace, st: State) {
    EndsAt(cfg, run, st) && forall j :: 0 <= j < |run.acts| ==> Clean(run.acts[j])
  }

  lemma OneMoreStep(cfg: Config, run: Trace, st: State, a: Act, next: State) returns (longer: Trace)
    requires EndsIn(cfg, run, st) && Follows(cfg, st, a, next) && Clean(a)
    ensures EndsIn(cfg, longer, next)
  {
    longer := Lengthen(cfg, run, st, a, next);
  }

  predicate AllClean(acts: seq<SubAct>) {
    forall a :: a in acts ==> CleanStep(a)
  }

  /** What one subscription can play out on its own, the system can. */
  lemma {:induction false} SystemPlays(cfg: Config, run: Trace, st: State, k: nat, acts: seq<SubAct>)
    returns (longer: Trace)
    requires EndsIn(cfg, run, st) && Live(st, k)
    requires Play(cfg, EnvOf(st, k), k, ViewOf(st, k), acts).Some? && AllClean(acts)
    ensures var v := Play(cfg, EnvOf(st, k), k, ViewOf(st, k), acts).value;
            && v.sub.inst == st.subs[k].inst && v.sub.log == st.subs[k].log
            && EndsIn(cfg, longer, WithView(st, k, v))
    decreases |acts|
  {
    if acts == [] {
      longer := run;
      assert WithView(st, k, ViewOf(st, k)) == st;
    } else {
      var v1 := Step(cfg, EnvOf(st, k), k, ViewOf(st, k), acts[0]);
      StepStaysHome(cfg, EnvOf(st, k), k, ViewOf(st, k), acts[0]);
      var st1 := WithView(st, k, v1);
      assert EnvOf(st1, k) == EnvOf(st, k) && ViewOf(st1, k) == v1;
      longer := OneMoreStep(cfg, run, st, Local(k, acts[0]), st1);
      longer := SystemPlays(cfg, longer, st1, k, acts[1..]);
      LastViewWins(st, k, v1, Play(cfg, EnvOf(st, k), k, v1, acts[1..]).value);
    }
  }

  lemma LastViewWins(st: State, k: nat, v: View, w: View)
    requires Live(st, k) && v.sub.inst == st.subs[k].inst && v.sub.log == st.subs[k].log
    ensures Live(WithView(st, k, v), k) && WithView(WithView(st, k, v), k, w) == WithView(st, k, w)
  {
  }

  // ----- a run that reaches the bound -----

  /** ClaimMinIdle is one tick, and there are no immediate retries. */
  function Tight(cap: nat, concurrency: nat): Config {
    Config(concurrency, 1, cap, 0)
  }

  function PiledGrants(n: nat): (g: seq<Grant>)
    ensures |g| == n && forall i :: 0 <= i < n ==> g[i].id == 1
  {
    if n == 0 then [] else PiledGrants(n - 1) + [Grant(1, n, n - 1, n == 1, 0, n)]
  }

  function CallsMade(cap: nat, n: nat): (c: seq<nat>)
    ensures |c| == n && forall i :: 0 <= i < n ==> c[i] == One(i < cap)
  {
    if n == 0 then [] else CallsMade(cap, n - 1) + [One(n <= cap)]
  }

  /** Delivery i is attempt i + 1: nacked after one handler call within the cap, and above it under way for good,
      its dead letter not yet written. */
  function Past(cap: nat, i: nat): Delivery {
    if i < cap then Delivery(i, 1, i + 1, i, i == 0, Returned(false), true, true, false)
    else Delivery(i, 1, i + 1, i, i == 0, Running(0, NoLetter), true, false, false)
  }

  function History(cap: nat, n: nat): (d: seq<Delivery>)
    ensures |d| == n && forall i :: 0 <= i < n ==> d[i] == Past(cap, i)
  {
    if n == 0 then [] else History(cap, n - 1) + [Past(cap, n - 1)]
  }

  function Stages(cap: nat, n: nat): (s: seq<Stage>)
    ensures |s| == n
  {
    if n == 0 then [] else Stages(cap, n - 1) + [if n - 1 < cap then Gone else Waiting]
  }

  /** Slots taken after `n` deliveries. */
  function Held(cap: nat, n: nat): nat {
    if n <= cap then 0 else n - cap
  }

  function PiledStream(cap: nat, n: nat, calls: seq<nat>): Log
    requires 1 <= n
  {
    Log({1}, {}, 2, Some(Group(1, map[1 := Pending(n, n - 1, n - 1)])), [], {}, PiledGrants(n), calls, 1, 0)
  }

  /** Entry 1 has been delivered `n` times, one tick apart, and its claim loop is at `claimer`. */
  function Piled(cap: nat, n: nat, claimer: Claimer): State
    requires 1 <= n
  {
    State(n - 1, [PiledStream(cap, n, CallsMade(cap, n))], [Inst(false, false, false, 1 + Held(cap, n))],
          [Sub(0, 0, Held(cap, n), RAcquire, claimer, false, false, History(cap, n), Stages(cap, n))])
  }

  /** Delivery `n` has just been handed to the router. */
  function Handed(cap: nat, n: nat, claimer: Claimer): State {
    var d := Delivery(n, 1, n + 1, n, n == 0, Idle, false, false, false);
    State(n, [PiledStream(cap, n + 1, CallsMade(cap, n) + [0])], [Inst(false, false, false, 2 + Held(cap, n))],
          [Sub(0, 0, Held(cap, n) + 1, RAcquire, claimer, false, false, History(cap, n) + [d], Stages(cap, n) + [Waiting])])
  }

  const FRESH := State(0, [EMPTY_LOG], [], [])
  const STARTED := State(0, [EMPTY_LOG], [NEW_PROCESS], [])
  const SUBSCRIBED := State(0, [Log({}, {}, 1, Some(Group(0, map[])), [], {}, [], [], 1, 0)],
                            [Inst(false, false, false, 1)], [NewSub(0, 0, true)])
  const PUBLISHED := State(0, [Log({1}, {}, 2, Some(Group(0, map[])), [], {}, [], [], 1, 0)],
                           [Inst(false, false, false, 1)], [NewSub(0, 0, true)])

  lemma StartedReached(cfg: Config) returns (run: Trace)
    ensures EndsIn(cfg, run, STARTED)
  {
    run := Trace([FRESH], []);
    run := OneMoreStep(cfg, run, FRESH, StartProcess, STARTED);
  }

  lemma SubscribedReached(cfg: Config) returns (run: Trace)
    ensures EndsIn(cfg, run, SUBSCRIBED)
  {
    run := StartedReached(cfg);
    run := OneMoreStep(cfg, run, STARTED, Subscribe(0, 0, true), SUBSCRIBED);
  }

  lemma PublishedReached(cfg: Config) returns (run: Trace)
    ensures EndsIn(cfg, run, PUBLISHED)
  {
    run := SubscribedReached(cfg);
    assert SUBSCRIBED.logs[0].entries + {1} == PUBLISHED.logs[0].entries;
    run := OneMoreStep(cfg, run, SUBSCRIBED, PublishEvent(0, true), PUBLISHED);
  }

  lemma FirstIsHanded(cap: nat, concurrency: nat) returns (longer: Trace)
    requires 1 <= concurrency
    ensures EndsIn(Tight(cap, concurrency), longer, Handed(cap, 0, CTick))
  {
    var cfg := Tight(cap, concurrency);
    longer := PublishedReached(cfg);
    UndeliveredIsRead(cfg, EnvOf(PUBLISHED, 0), 0, ViewOf(PUBLISHED, 0), 1);
    longer := SystemPlays(cfg, longer, PUBLISHED, 0, ReadPath(1));
  }

  /** Piled up, and one tick later: the entry has become claimable. */
  function Late(cap: nat, n: nat): State
    requires 1 <= n
  {
    Piled(cap, n, CTick).(now := n)
  }

  lemma LateIsReclaimed(cap: nat, concurrency: nat, n: nat)
    requires 1 <= n && Held(cap, n) < concurrency
    ensures var env, v, after := EnvOf(Late(cap, n), 0), ViewOf(Late(cap, n), 0), ViewOf(Handed(cap, n, CSweep([])), 0);
            Play(Tight(cap, concurrency), env, 0, v, ClaimPath([Snapshot(1, n)])) == Some(after)
  {
    var st, after := Late(cap, n), Handed(cap, n, CSweep([]));
    PendingIsReclaimed(Tight(cap, concurrency), EnvOf(st, 0), 0, ViewOf(st, 0), [Snapshot(1, n)]);
    assert st.logs[0].group.value.pel[1 := Pending(n + 1, n, n)] == after.logs[0].group.value.pel;
    assert Claim(st.logs[0], n, 1, 0, n + 1) == after.logs[0];
    assert [Snapshot(1, n)][1..] == [];
    assert Waits(EnvOf(st, 0), ViewOf(st, 0), 1, n + 1, false).(claimer := CSweep([])) == after.subs[0];
  }

  lemma LateReached(cfg: Config, run: Trace, cap: nat, n: nat) returns (longer: Trace)
    requires 1 <= n && EndsIn(cfg, run, Piled(cap, n, CTick))
    ensures EndsIn(cfg, longer, Late(cap, n))
  {
    longer := OneMoreStep(cfg, run, Piled(cap, n, CTick), ClockTick, Late(cap, n));
  }

  lemma NextIsHanded(run: Trace, cap: nat, concurrency: nat, n: nat) returns (longer: Trace)
    requires 1 <= n && Held(cap, n) < concurrency && EndsIn(Tight(cap, concurrency), run, Piled(cap, n, CTick))
    ensures EndsIn(Tight(cap, concurrency), longer, Handed(cap, n, CSweep([])))
  {
    longer := LateReached(Tight(cap, concurrency), run, cap, n);
    LateIsReclaimed(cap, concurrency, n);
    longer := SystemPlays(Tight(cap, concurrency), longer, Late(cap, n), 0, ClaimPath([Snapshot(1, n)]));
    assert WithView(Late(cap, n), 0, ViewOf(Handed(cap, n, CSweep([])), 0)) == Handed(cap, n, CSweep([]));
  }

  /** An over-cap delivery begins its dispatch and gets no further. */
  lemma OverCapBegins(cap: nat, concurrency: nat, n: nat, claimer: Claimer)
    requires cap <= n
    ensures Follows(Tight(cap, concurrency), Handed(cap, n, claimer), Local(0, OfMessage(n, BeginDispatch)),
                    Piled(cap, n + 1, claimer))
  {
    var sub := Handed(cap, n, claimer).subs[0];
    assert sub.deliveries[n := Past(cap, n)] == History(cap, n + 1);
    assert sub.stages[n := Waiting] == Stages(cap, n + 1);
  }

  /** A delivery within the cap is nacked. */
  lemma WithinCapIsNacked(cap: nat, concurrency: nat, n: nat, claimer: Claimer)
    requires n < cap
    ensures var st, after := Handed(cap, n, claimer), Piled(cap, n + 1, claimer);
            Play(Tight(cap, concurrency), EnvOf(st, 0), 0, ViewOf(st, 0), NackPath(n)) == Some(ViewOf(after, 0))
  {
    var st, after := Handed(cap, n, claimer), Piled(cap, n + 1, claimer);
    FailureIsNacked(Tight(cap, concurrency), EnvOf(st, 0), 0, ViewOf(st, 0), n);
    assert st.logs[0].calls[n := 1] == after.logs[0].calls;
    assert st.subs[0].deliveries[n := Past(cap, n)] == after.subs[0].deliveries;
    assert st.subs[0].stages[n := Gone] == after.subs[0].stages;
  }

  lemma NackPathIsClean(n: nat)
    ensures AllClean(NackPath(n))
  {
  }

  lemma NackReached(run: Trace, cap: nat, concurrency: nat, n: nat, claimer: Claimer) returns (longer: Trace)
    requires n < cap && EndsIn(Tight(cap, concurrency), run, Handed(cap, n, claimer))
    ensures EndsIn(Tight(cap, concurrency), longer, Piled(cap, n + 1, claimer))
  {
    WithinCapIsNacked(cap, concurrency, n, claimer);
    NackPathIsClean(n);
    longer := SystemPlays(Tight(cap, concurrency), run, Handed(cap, n, claimer), 0, NackPath(n));
    assert WithView(Handed(cap, n, claimer), 0, ViewOf(Piled(cap, n + 1, claimer), 0)) == Piled(cap, n + 1, claimer);
  }

  lemma BeginReached(run: Trace, cap: nat, concurrency: nat, n: nat, claimer: Claimer) returns (longer: Trace)
    requires cap <= n && EndsIn(Tight(cap, concurrency), run, Handed(cap, n, claimer))
    ensures EndsIn(Tight(cap, concurrency), longer, Piled(cap, n + 1, claimer))
  {
    OverCapBegins(cap, concurrency, n, claimer);
    longer := OneMoreStep(Tight(cap, concurrency), run, Handed(cap, n, claimer), Local(0, OfMessage(n, BeginDispatch)),
                          Piled(cap, n + 1, claimer));
  }

  lemma OneMoreDispatch(run: Trace, cap: nat, concurrency: nat, n: nat, claimer: Claimer) returns (longer: Trace)
    requires EndsIn(Tight(cap, concurrency), run, Handed(cap, n, claimer))
    ensures EndsIn(Tight(cap, concurrency), longer, Piled(cap, n + 1, claimer))
  {
    if n < cap {
      longer := NackReached(run, cap, concurrency, n, claimer);
    } else {
      longer := BeginReached(run, cap, concurrency, n, claimer);
    }
  }

  lemma SweepEnds(cfg: Config, cap: nat, n: nat)
    requires 1 <= n
    ensures Follows(cfg, Piled(cap, n, CSweep([])), Local(0, OfClaimer(ClaimResume)), Piled(cap, n, CTick))
  {
  }

  lemma SweepEndReached(cfg: Config, run: Trace, cap: nat, n: nat) returns (longer: Trace)
    requires 1 <= n && EndsIn(cfg, run, Piled(cap, n, CSweep([])))
    ensures EndsIn(cfg, longer, Piled(cap, n, CTick))
  {
    SweepEnds(cfg, cap, n);
    longer := OneMoreStep(cfg, run, Piled(cap, n, CSweep([])), Local(0, OfClaimer(ClaimResume)),
                          Piled(cap, n, CTick));
  }

  lemma PilesUp(run: Trace, cap: nat, concurrency: nat, n: nat) returns (longer: Trace)
    requires 1 <= n && Held(cap, n) < concurrency && EndsIn(Tight(cap, concurrency), run, Piled(cap, n, CTick))
    ensures EndsIn(Tight(cap, concurrency), longer, Piled(cap, n + 1, CTick))
  {
    longer := NextIsHanded(run, cap, concurrency, n);
    longer := OneMoreDispatch(longer, cap, concurrency, n, CSweep([]));
    longer := SweepEndReached(Tight(cap, concurrency), longer, cap, n + 1);
  }

  lemma {:induction false} PiledReached(cap: nat, concurrency: nat, n: nat) returns (longer: Trace)
    requires n < cap + concurrency && 1 <= concurrency
    ensures EndsIn(Tight(cap, concurrency), longer, Piled(cap, n + 1, CTick))
  {
    if n == 0 {
      longer := FirstIsHanded(cap, concurrency);
      longer := OneMoreDispatch(longer, cap, concurrency, n, CTick);
    } else {
      longer := PiledReached(cap, concurrency, n - 1);
      assert n - 1 + 1 == n;
      longer := PilesUp(longer, cap, concurrency, n);
    }
  }

  lemma {:induction false} AllDispatched(cap: nat, n: nat, upTo: nat)
    requires upTo <= n
    ensures TimesDispatched(History(cap, n), 1, upTo) == upTo
  {
    if upTo > 0 {
      AllDispatched(cap, n, upTo - 1);
    }
  }

  lemma {:induction false} CallsAddUp(cap: nat, n: nat, upTo: nat)
    requires 1 <= n && upTo <= n
    ensures TotalCalls(PiledStream(cap, n, CallsMade(cap, n)), 1, upTo) == if upTo < cap then upTo else cap
  {
    if upTo > 0 {
      CallsAddUp(cap, n, upTo - 1);
    }
  }

  lemma {:induction false} OverCapsRun(cap: nat, n: nat)
    ensures RunningHandlers(History(cap, n)) == Held(cap, n)
  {
    if n > 0 {
      OverCapsRun(cap, n - 1);
      assert History(cap, n)[..n - 1] == History(cap, n - 1);
    }
  }

  lemma {:induction false} SubsOnlyGrow(cfg: Config, states: seq<State>, acts: seq<Act>, i: nat, j: nat)
    requires IsRun(cfg, states, acts) && i <= j < |states|
    ensures |states[i].subs| <= |states[j].subs|
    decreases j
  {
    if i < j {
      SubsOnlyGrow(cfg, states, acts, i, j - 1);
      assert StepAt(cfg, states, acts, j - 1);
    }
  }

  /** In a run without failures and losses every subscription meets the hypotheses on it. */
  lemma EndsSteady(cfg: Config, run: Trace, st: State, k: nat)
    requires EndsIn(cfg, run, st) && Live(st, k) && !st.insts[st.subs[k].inst].closing
    requires st.subs[k].log < |st.logs| && st.logs[st.subs[k].log].losses == 0
    ensures SteadyRun(cfg, run.states, run.acts, |run.acts|, k)
  {
    forall j: nat | j < |run.acts| ensures Diligent(run.acts, j, k) {
      assert Clean(run.acts[j]);
    }
  }

  lemma OneSubscription(cfg: Config, run: Trace, st: State)
    requires EndsIn(cfg, run, st) && |st.subs| == 1 && |st.logs| == 1 && st.logs[0].losses == 0
    ensures SingleInstance(run.states, 0, |run.states|)
  {
    var states, acts, i := run.states, run.acts, |run.acts|;
    forall j | 0 <= j < |states|
      ensures 0 < |states[j].logs| && states[j].logs[0].losses == 0 && OneLive(states[j], 0)
    {
      LogsConstant(cfg, states, acts, j, i);
      LossesGrow(cfg, states, acts, j, i, 0);
      SubsOnlyGrow(cfg, states, acts, j, i);
    }
  }

  /** For every MaxDeliveryAttempts and every Concurrency a run that meets the hypotheses of PoisonBounded reaches its
      bound. From Concurrency 2 on that is more than MaxDeliveryAttempts + 1, so timeliness is needed there. */
  lemma BoundIsReached(cap: nat, concurrency: nat) returns (run: Trace)
    requires 1 <= cap && 1 <= concurrency
    ensures var st := Piled(cap, cap + concurrency, CTick);
            && EndsIn(Tight(cap, concurrency), run, st)
            && SteadyRun(Tight(cap, concurrency), run.states, run.acts, |run.acts|, 0)
            && SingleInstance(run.states, 0, |run.states|)
            && TimesDispatched(st.subs[0].deliveries, 1, |st.subs[0].deliveries|) == cap + concurrency
            && (2 <= concurrency ==> !Timely(Tight(cap, concurrency), st, 0))
  {
    var n := cap + concurrency;
    run := PiledReached(cap, concurrency, n - 1);
    AllDispatched(cap, n, n);
    EndsSteady(Tight(cap, concurrency), run, Piled(cap, n, CTick), 0);
    OneSubscription(Tight(cap, concurrency), run, Piled(cap, n, CTick));
    if 2 <= concurrency {
      StuckInSlot(cap, n, cap);
      assert BusyAt(Piled(cap, n, CTick), 0, cap);
    }
  }

  /** The same run makes as many handler calls as WorkBound allows without immediate retries, and ends with as many
      dispatches under way at once as HandlersBounded allows. */
  lemma WorkIsReached(cap: nat, concurrency: nat) returns (run: Trace)
    requires 1 <= cap && 1 <= concurrency
    ensures var st := Piled(cap, cap + concurrency, CTick);
            && EndsIn(Tight(cap, concurrency), run, st)
            && TotalCalls(st.logs[0], 1, |st.logs[0].grants|) == cap
            && RunningHandlers(st.subs[0].deliveries) == concurrency
  {
    run := PiledReached(cap, concurrency, cap + concurrency - 1);
    CallsAddUp(cap, cap + concurrency, cap + concurrency);
    OverCapsRun(cap, cap + concurrency);
  }

  lemma {:induction false} ClockOnlyGrows(cfg: Config, states: seq<State>, acts: seq<Act>, i: nat, j: nat)
    requires IsRun(cfg, states, acts) && i <= j < |states|
    ensures states[i].now <= states[j].now
    decreases j
  {
    if i < j {
      ClockOnlyGrows(cfg, states, acts, i, j - 1);
      assert StepAt(cfg, states, acts, j - 1);
    }
  }

  /** The hypotheses on calm runs can be met with a delivery in flight: before the first tick everything is timely. */
  lemma CalmRunExists(cap: nat, concurrency: nat) returns (run: Trace)
    requires 1 <= concurrency
    ensures EndsIn(Tight(cap, concurrency), run, Handed(cap, 0, CTick)) && BusyAt(Handed(cap, 0, CTick), 0, 0)
    ensures CalmRun(Tight(cap, concurrency), run.states, run.acts, |run.acts|, 0)
  {
    var cfg, st := Tight(cap, concurrency), Handed(cap, 0, CTick);
    run := FirstIsHanded(cap, concurrency);
    EndsSteady(cfg, run, st, 0);
    forall j | 0 <= j <= |run.acts| ensures Timely(cfg, run.states[j], 0) {
      ClockOnlyGrows(cfg, run.states, run.acts, j, |run.acts|);
    }
  }

  lemma {:induction false} StuckInSlot(cap: nat, n: nat, i: nat)
    requires cap <= i < n
    ensures Stages(cap, n)[i] == Waiting
  {
    if i < n - 1 {
      StuckInSlot(cap, n - 1, i);
    }
  }
}
