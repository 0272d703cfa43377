/** Attempt numbers, and the bounds they give: how often an entry is dispatched and its handler called. */
module ConsumeAttempts {
  import opened Basics
  import opened RedisStream
  import opened Subscriber
  import opened SubscriberInvariant
  import opened ConsumeSystem

  // ----- attempts on any number of instances -----

  /** Every stamped attempt is at least 1 and, while the group is not lost, never ahead of the server's
      delivery counter; counters of one entry strictly grow. */
  lemma StampsNeverAhead(cfg: Config, states: seq<State>, acts: seq<Act>, i: nat, k: nat, n: nat)
    requires IsRun(cfg, states, acts) && i < |states| && k < |states[i].subs| && n < |states[i].subs[k].deliveries|
    ensures states[i].subs[k].log < |states[i].logs|
    ensures var log, d := states[i].logs[states[i].subs[k].log], states[i].subs[k].deliveries[n];
            && 1 <= d.attempt
            && d.grant < |log.grants| && log.grants[d.grant].id == d.id
            && (log.losses == 0 ==> d.attempt <= log.grants[d.grant].count)
            && (log.losses == 0 ==>
                 forall g :: 0 <= g < d.grant && log.grants[g].id == d.id ==> log.grants[g].count < log.grants[d.grant].count)
  {
    Reachable(cfg, states, acts, i);
    assert SubOk(cfg, states[i], k);
    var sub := states[i].subs[k];
    assert Granted(cfg, states[i].logs[sub.log], k, sub.deliveries[n]);
    assert LogInv(cfg, states[i].logs[sub.log]);
  }

  // ----- attempts with one instance at a time -----

  /** At most one subscription of the stream is on a process that has not crashed. */
  ghost predicate OneLive(st: State, t: nat) {
    forall j: nat, k: nat :: Live(st, j) && Live(st, k) && st.subs[j].log == t && st.subs[k].log == t ==> j == k
  }

  /** Each snapshot line that is still pending carries the server's counter. */
  ghost predicate SnapshotExact(log: Log, todo: seq<Snapshot>) {
    && (forall i, j :: 0 <= i < j < |todo| ==> todo[i].id < todo[j].id)
    && (log.group.Some? ==>
         forall i :: 0 <= i < |todo| && todo[i].id in log.group.value.pel ==>
           todo[i].count == log.group.value.pel[todo[i].id].count)
  }

  /** Every attempt stamped so far is the server's counter. */
  ghost predicate StampsExact(log: Log) {
    forall g :: 0 <= g < |log.grants| ==> log.grants[g].stamp == 0 || log.grants[g].stamp == log.grants[g].count
  }

  ghost predicate Exact(st: State, t: nat) {
    && t < |st.logs|
    && StampsExact(st.logs[t])
    && forall k: nat :: Live(st, k) && st.subs[k].log == t ==> SnapshotExact(st.logs[t], Todo(st.subs[k]))
  }

  lemma ReadKeepsExact(cfg: Config, env: Env, k: nat, v: View, a: ReadAct)
    requires ReadEnabled(cfg, env, v, a) && StampsExact(v.log) && SnapshotExact(v.log, Todo(v.sub))
    requires v.log.losses == 0 && SnapshotBehind(v.log, Todo(v.sub)) && PelWellFormed(v.log)
    ensures var next := ReadStep(cfg, env, k, v, a); StampsExact(next.log) && SnapshotExact(next.log, Todo(next.sub))
  {
  }

  lemma ClaimKeepsExact(cfg: Config, env: Env, k: nat, v: View, a: ClaimAct)
    requires ClaimEnabled(cfg, env, v, a) && StampsExact(v.log) && SnapshotExact(v.log, Todo(v.sub))
    requires v.log.losses == 0 && SnapshotBehind(v.log, Todo(v.sub))
    ensures var next := ClaimStep(cfg, env, k, v, a); StampsExact(next.log) && SnapshotExact(next.log, Todo(next.sub))
  {
  }

  lemma OtherKeepsExact(cfg: Config, env: Env, k: nat, v: View, a: SubAct)
    requires Enabled(cfg, env, v, a) && !a.OfReader? && !a.OfClaimer?
    requires StampsExact(v.log) && SnapshotExact(v.log, Todo(v.sub))
    ensures var next := Step(cfg, env, k, v, a); StampsExact(next.log) && SnapshotExact(next.log, Todo(next.sub))
  {
  }

  lemma LocalKeepsExact(cfg: Config, st: State, k: nat, a: SubAct, t: nat)
    requires SysInv(cfg, st) && ActEnabled(cfg, st, Local(k, a)) && OneLive(st, t) && Exact(st, t)
    requires st.logs[t].losses == 0
    ensures Exact(Next(cfg, st, Local(k, a)), t)
  {
    var env, v, next := EnvOf(st, k), ViewOf(st, k), Next(cfg, st, Local(k, a));
    StepStaysHome(cfg, env, k, v, a);
    assert SubOk(cfg, st, k) && LogInv(cfg, st.logs[t]);
    if st.subs[k].log == t {
      assert SnapshotExact(v.log, Todo(v.sub));
      if a.OfReader? {
        ReadKeepsExact(cfg, env, k, v, a.r);
      } else if a.OfClaimer? {
        ClaimKeepsExact(cfg, env, k, v, a.c);
      } else {
        OtherKeepsExact(cfg, env, k, v, a);
      }
    }
    forall j: nat | Live(next, j) && next.subs[j].log == t ensures SnapshotExact(next.logs[t], Todo(next.subs[j])) {
      assert Live(st, j) && st.subs[j].log == t;
    }
  }

  /** The environment delivers nothing and changes no counter. */
  lemma EnvironmentLeavesCounters(cfg: Config, st: State, a: Act, t: nat)
    requires ActEnabled(cfg, st, a) && !a.Local? && t < |st.logs|
    ensures var log, next := st.logs[t], Next(cfg, st, a).logs[t];
            && next.grants == log.grants
            && (next.group == log.group || (next.group.Some? ==> next.group.value.pel == map[]))
  {
  }

  lemma ExactStays(log: Log, next: Log, todo: seq<Snapshot>)
    requires SnapshotExact(log, todo)
    requires next.group == log.group || (next.group.Some? ==> next.group.value.pel == map[])
    ensures SnapshotExact(next, todo)
  {
  }

  /** A subscription that has just started has nothing to claim. */
  lemma EnvironmentLeavesTodo(cfg: Config, st: State, a: Act, k: nat)
    requires SysInv(cfg, st) && ActEnabled(cfg, st, a) && !a.Local? && Live(Next(cfg, st, a), k)
    ensures if k < |st.subs| then Live(st, k) && Next(cfg, st, a).subs[k] == st.subs[k]
            else Todo(Next(cfg, st, a).subs[k]) == []
  {
    if k < |st.subs| {
      LiveBefore(cfg, st, a, k);
    }
  }

  lemma EnvironmentKeepsExact(cfg: Config, st: State, a: Act, t: nat)
    requires SysInv(cfg, st) && ActEnabled(cfg, st, a) && !a.Local? && Exact(st, t)
    ensures Exact(Next(cfg, st, a), t)
  {
    EnvironmentLeavesCounters(cfg, st, a, t);
    var next := Next(cfg, st, a);
    forall k: nat | Live(next, k) && next.subs[k].log == t ensures SnapshotExact(next.logs[t], Todo(next.subs[k])) {
      EnvironmentLeavesTodo(cfg, st, a, k);
      if k < |st.subs| {
        ExactStays(st.logs[t], next.logs[t], Todo(st.subs[k]));
      }
    }
  }

  lemma StepKeepsExact(cfg: Config, st: State, a: Act, t: nat)
    requires SysInv(cfg, st) && ActEnabled(cfg, st, a) && OneLive(st, t) && Exact(st, t)
    requires st.logs[t].losses == 0
    ensures Exact(Next(cfg, st, a), t)
  {
    if a.Local? {
      LocalKeepsExact(cfg, st, a.k, a.a, t);
    } else {
      EnvironmentKeepsExact(cfg, st, a, t);
    }
  }

  /** The run keeps its group on stream `t` and has one live instance there at a time. */
  ghost predicate SingleInstance(states: seq<State>, t: nat, upTo: nat) {
    && upTo <= |states|
    && forall j :: 0 <= j < upTo ==>
         t < |states[j].logs| && states[j].logs[t].losses == 0 && OneLive(states[j], t)
  }

  lemma {:induction false} RunKeepsExact(cfg: Config, states: seq<State>, acts: seq<Act>, i: nat, t: nat)
    requires IsRun(cfg, states, acts) && i < |states| && t < |states[0].logs| && SingleInstance(states, t, i)
    ensures Exact(states[i], t)
  {
    if i == 0 {
      assert states[0].subs == [];
    } else {
      RunKeepsExact(cfg, states, acts, i - 1, t);
      Reachable(cfg, states, acts, i - 1);
      assert StepAt(cfg, states, acts, i - 1);
      StepKeepsExact(cfg, states[i - 1], acts[i - 1], t);
    }
  }

  /** With one instance at a time, also across restarts, and lost replies: the attempt stamped on a
      delivery is exactly the server's delivery counter after the read or claim that made it, so attempts
      strictly grow per entry in the order the deliveries were made. */
  lemma StampsAreCounters(cfg: Config, states: seq<State>, acts: seq<Act>, i: nat, t: nat,
                          j: nat, m: nat, k: nat, n: nat)
    requires IsRun(cfg, states, acts) && i < |states| && t < |states[0].logs| && SingleInstance(states, t, i)
    requires j < |states[i].subs| && k < |states[i].subs| && states[i].subs[j].log == t == states[i].subs[k].log
    requires m < |states[i].subs[j].deliveries| && n < |states[i].subs[k].deliveries|
    requires t < |states[i].logs| && states[i].logs[t].losses == 0
    ensures var log, d, e := states[i].logs[t], states[i].subs[j].deliveries[m], states[i].subs[k].deliveries[n];
            && d.grant < |log.grants| && d.attempt == log.grants[d.grant].count
            && (d.id == e.id && d.grant < e.grant ==> d.attempt < e.attempt)
  {
    RunKeepsExact(cfg, states, acts, i, t);
    StampsNeverAhead(cfg, states, acts, i, j, m);
    StampsNeverAhead(cfg, states, acts, i, k, n);
    assert SubOk(cfg, states[i], j) && SubOk(cfg, states[i], k) by {
      Reachable(cfg, states, acts, i);
    }
    assert Granted(cfg, states[i].logs[t], j, states[i].subs[j].deliveries[m]);
    assert Granted(cfg, states[i].logs[t], k, states[i].subs[k].deliveries[n]);
  }

  // ----- worst-case work -----

  /** Handler calls made for an entry under the first `upTo` grants, by every instance together. */
  function TotalCalls(log: Log, id: nat, upTo: nat): nat
    requires upTo <= |log.grants| == |log.calls|
  {
    if upTo == 0 then 0
    else TotalCalls(log, id, upTo - 1) + (if log.grants[upTo - 1].id == id then log.calls[upTo - 1] else 0)
  }

  lemma {:induction false} OneTimesMore(m: nat, n: nat, k: nat)
    requires m < n
    ensures m * k + k <= n * k
    decreases n
  {
    assert (n - 1) * k + k == n * k;
    if m < n - 1 {
      OneTimesMore(m, n - 1, k);
    }
  }

  /** Calls are made only under counters up to `most`, at most `per` under each. */
  lemma {:induction false} CallsBounded(log: Log, id: nat, upTo: nat, most: nat, per: nat)
    requires CountersGrow(log.grants) && upTo <= |log.grants| == |log.calls|
    requires forall g :: 0 <= g < upTo ==> log.calls[g] <= per
    requires forall g :: 0 <= g < upTo && log.grants[g].id == id && log.calls[g] > 0 ==> 1 <= log.grants[g].count <= most
    ensures TotalCalls(log, id, upTo) <= most * per
  {
    if upTo > 0 {
      var g := upTo - 1;
      if log.grants[g].id == id && log.calls[g] > 0 {
        var fewer := log.grants[g].count - 1;
        CallsBounded(log, id, g, fewer, per);
        OneTimesMore(fewer, most, per);
      } else {
        CallsBounded(log, id, g, most, per);
      }
    }
  }

  /** One entry's handler is called at most MaxDeliveryAttempts x (1 + MaxImmediateRetries) times,
      through nacks, crashes, restarts, lost replies and failed acknowledgements. */
  lemma WorkBound(cfg: Config, states: seq<State>, acts: seq<Act>, i: nat, t: nat, id: nat)
    requires IsRun(cfg, states, acts) && i < |states| && t < |states[0].logs| && SingleInstance(states, t, i)
    requires t < |states[i].logs| && states[i].logs[t].losses == 0 && 1 <= cfg.cap
    ensures |states[i].logs[t].grants| == |states[i].logs[t].calls|
    ensures TotalCalls(states[i].logs[t], id, |states[i].logs[t].grants|) <= cfg.cap * (1 + cfg.retries)
  {
    Reachable(cfg, states, acts, i);
    RunKeepsExact(cfg, states, acts, i, t);
    assert LogInv(cfg, states[i].logs[t]);
    CallsBounded(states[i].logs[t], id, |states[i].logs[t].grants|, cfg.cap, 1 + cfg.retries);
  }

  /** Of the first `upTo` grants, those for `id` whose message is stamped with an attempt within the cap. */
  function WithinCap(grants: seq<Grant>, id: nat, cap: int, upTo: nat): nat
    requires upTo <= |grants|
  {
    if upTo == 0 then 0
    else WithinCap(grants, id, cap, upTo - 1) + One(grants[upTo - 1].id == id && 1 <= grants[upTo - 1].stamp <= cap)
  }

  lemma {:induction false} WithinCapBounded(grants: seq<Grant>, id: nat, cap: int, upTo: nat, most: nat)
    requires CountersGrow(grants) && upTo <= |grants|
    requires forall g :: 0 <= g < upTo && grants[g].id == id && 1 <= grants[g].stamp <= cap ==> 1 <= grants[g].count <= most
    ensures WithinCap(grants, id, cap, upTo) <= most
  {
    if upTo > 0 {
      var last := grants[upTo - 1];
      WithinCapBounded(grants, id, cap, upTo - 1, if last.id == id && 1 <= last.stamp <= cap then last.count - 1 else most);
    }
  }

  /** However slow the handlers and whatever crashes or fails: at most MaxDeliveryAttempts deliveries of an entry
      pass the cap check; every further one is dead-lettered without a handler call. */
  lemma DeliveriesWithinCap(cfg: Config, states: seq<State>, acts: seq<Act>, i: nat, t: nat, id: nat)
    requires IsRun(cfg, states, acts) && i < |states| && t < |states[0].logs| && SingleInstance(states, t, i)
    requires t < |states[i].logs| && states[i].logs[t].losses == 0 && 1 <= cfg.cap
    ensures WithinCap(states[i].logs[t].grants, id, cfg.cap, |states[i].logs[t].grants|) <= cfg.cap
    ensures forall g :: 0 <= g < |states[i].logs[t].grants| && states[i].logs[t].grants[g].stamp > cfg.cap ==>
              g < |states[i].logs[t].calls| && states[i].logs[t].calls[g] == 0
  {
    Reachable(cfg, states, acts, i);
    RunKeepsExact(cfg, states, acts, i, t);
    assert LogInv(cfg, states[i].logs[t]);
    WithinCapBounded(states[i].logs[t].grants, id, cfg.cap, |states[i].logs[t].grants|, cfg.cap);
  }
}
