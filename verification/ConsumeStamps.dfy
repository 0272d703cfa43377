/** Attempt numbers on any number of instances: exactly when a stamp is the server's counter, and how far stale
    snapshots can stretch the cap. */
module ConsumeStamps {
  import opened RedisStream
  import opened Subscriber
  import opened SubscriberInvariant
  import opened ConsumeSystem
  import opened ConsumeSafety

  // ----- sweeps -----

  predicate Scans(a: Act, k: nat) {
    a.Local? && a.k == k && a.a.OfClaimer? && a.a.c.ClaimScan?
  }

  /** Action `i` is the scan whose lines subscription `k` still holds in state `j`. */
  ghost predicate SweepOf(acts: seq<Act>, k: nat, i: nat, j: nat) {
    i < j <= |acts| && Scans(acts[i], k) && forall m :: i < m < j ==> !Scans(acts[m], k)
  }

  /** `todo` is what is left of `reply`. */
  predicate LeftOf(todo: seq<Snapshot>, reply: seq<Snapshot>) {
    |todo| <= |reply| && todo == reply[|reply| - |todo|..]
  }

  lemma StillLeft(todo: seq<Snapshot>, more: seq<Snapshot>, reply: seq<Snapshot>)
    requires LeftOf(todo, more) && LeftOf(more, reply)
    ensures LeftOf(todo, reply)
  {
    assert reply[|reply| - |more|..][|more| - |todo|..] == reply[|reply| - |todo|..];
  }

  lemma SweepShrinks(cfg: Config, env: Env, k: nat, v: View, a: ClaimAct)
    requires ClaimEnabled(cfg, env, v, a) && !a.ClaimScan?
    ensures LeftOf(Todo(ClaimStep(cfg, env, k, v, a).sub), Todo(v.sub))
  {
    var todo := Todo(ClaimStep(cfg, env, k, v, a).sub);
    assert todo == Todo(v.sub) || todo == [] || (Todo(v.sub) != [] && todo == Todo(v.sub)[1..]);
  }

  lemma EmissionShrinks(env: Env, v: View, who: Loop, a: EmitAct)
    requires EmitEnabled(env, v, who, a)
    ensures LeftOf(Todo(EmitStep(env, v, who, a).sub), Todo(v.sub))
  {
    var todo := Todo(EmitStep(env, v, who, a).sub);
    assert todo == Todo(v.sub) || todo == [];
  }

  /** Only a scan adds lines. */
  lemma TodoShrinks(cfg: Config, env: Env, k: nat, v: View, a: SubAct)
    requires Enabled(cfg, env, v, a) && !(a.OfClaimer? && a.c.ClaimScan?)
    ensures LeftOf(Todo(Step(cfg, env, k, v, a).sub), Todo(v.sub))
  {
    match a
    case OfClaimer(c) => SweepShrinks(cfg, env, k, v, c);
    case OfEmit(who, e) => EmissionShrinks(env, v, who, e);
    case _ => assert Step(cfg, env, k, v, a).sub.claimer == v.sub.claimer;
  }

  /** A step that is not `k`'s own scan leaves `k` with lines it had; a new subscription has none. */
  lemma TodoAfter(cfg: Config, st: State, a: Act, next: State, k: nat)
    requires Follows(cfg, st, a, next) && !Scans(a, k) && k < |next.subs|
    ensures k < |st.subs| ==> LeftOf(Todo(next.subs[k]), Todo(st.subs[k])) && next.subs[k].log == st.subs[k].log
    ensures k >= |st.subs| ==> Todo(next.subs[k]) == []
  {
    if a.Local? && a.k == k {
      TodoShrinks(cfg, EnvOf(st, k), k, ViewOf(st, k), a.a);
      StepStaysHome(cfg, EnvOf(st, k), k, ViewOf(st, k), a.a);
    }
  }

  lemma ScanTakesReply(cfg: Config, st: State, a: Act, next: State, k: nat)
    requires Follows(cfg, st, a, next) && Scans(a, k)
    ensures Live(st, k) && k < |next.subs| && next.subs[k].log == st.subs[k].log
    ensures Todo(next.subs[k]) == a.a.c.reply && next.logs == st.logs
    ensures IsPendingReply(st.logs[st.subs[k].log], st.now, cfg.minIdle, CLAIM_BATCH, a.a.c.reply)
  {
    assert next.logs == st.logs[st.subs[k].log := st.logs[st.subs[k].log]];
  }

  /** The lines subscription `k` holds in state `st` are left of the reply of action `i`. */
  ghost predicate HoldsFrom(states: seq<State>, acts: seq<Act>, k: nat, i: nat, st: State) {
    && i < |acts| && i < |states| && Scans(acts[i], k) && k < |states[i].subs| && k < |st.subs|
    && states[i].subs[k].log == st.subs[k].log
    && LeftOf(Todo(st.subs[k]), acts[i].a.c.reply)
  }

  lemma HoldsOn(cfg: Config, states: seq<State>, acts: seq<Act>, k: nat, i: nat, st: State, a: Act, next: State)
    requires HoldsFrom(states, acts, k, i, st) && Follows(cfg, st, a, next) && !Scans(a, k) && k < |next.subs|
    ensures HoldsFrom(states, acts, k, i, next)
  {
    TodoAfter(cfg, st, a, next, k);
    StillLeft(Todo(next.subs[k]), Todo(st.subs[k]), acts[i].a.c.reply);
  }

  lemma HadLines(cfg: Config, st: State, a: Act, next: State, k: nat)
    requires Follows(cfg, st, a, next) && !Scans(a, k) && k < |next.subs| && Todo(next.subs[k]) != []
    ensures k < |st.subs| && Todo(st.subs[k]) != []
  {
    TodoAfter(cfg, st, a, next, k);
  }

  lemma SweepBegins(cfg: Config, states: seq<State>, acts: seq<Act>, i: nat, k: nat)
    requires i < |acts| && i + 1 < |states| && Follows(cfg, states[i], acts[i], states[i + 1]) && Scans(acts[i], k)
    ensures SweepOf(acts, k, i, i + 1) && HoldsFrom(states, acts, k, i, states[i + 1])
  {
    ScanTakesReply(cfg, states[i], acts[i], states[i + 1], k);
  }

  lemma SweepGoesOn(cfg: Config, states: seq<State>, acts: seq<Act>, i: nat, j: nat, k: nat)
    requires j < |acts| && j + 1 < |states| && Follows(cfg, states[j], acts[j], states[j + 1]) && !Scans(acts[j], k)
    requires SweepOf(acts, k, i, j) && HoldsFrom(states, acts, k, i, states[j]) && k < |states[j + 1].subs|
    ensures SweepOf(acts, k, i, j + 1) && HoldsFrom(states, acts, k, i, states[j + 1])
  {
    HoldsOn(cfg, states, acts, k, i, states[j], acts[j], states[j + 1]);
  }

  /** The last step was the scan, or the lines were there before it. */
  lemma OneStepBack(cfg: Config, states: seq<State>, acts: seq<Act>, j: nat, k: nat)
    requires IsRun(cfg, states, acts) && j < |states| && k < |states[j].subs| && Todo(states[j].subs[k]) != []
    ensures 0 < j <= |acts|
    ensures if Scans(acts[j - 1], k) then SweepOf(acts, k, j - 1, j) && HoldsFrom(states, acts, k, j - 1, states[j])
            else k < |states[j - 1].subs| && Todo(states[j - 1].subs[k]) != []
  {
    assert states[0].subs == [];
    assert StepAt(cfg, states, acts, j - 1);
    if Scans(acts[j - 1], k) {
      SweepBegins(cfg, states, acts, j - 1, k);
    } else {
      HadLines(cfg, states[j - 1], acts[j - 1], states[j], k);
    }
  }

  /** A sweep under way before the last step still is, unless that step was a scan. */
  lemma OneStepOn(cfg: Config, states: seq<State>, acts: seq<Act>, i: nat, j: nat, k: nat)
    requires IsRun(cfg, states, acts) && 0 < j < |states| && k < |states[j].subs| && !Scans(acts[j - 1], k)
    requires SweepOf(acts, k, i, j - 1) && HoldsFrom(states, acts, k, i, states[j - 1])
    ensures SweepOf(acts, k, i, j) && HoldsFrom(states, acts, k, i, states[j])
  {
    assert StepAt(cfg, states, acts, j - 1);
    SweepGoesOn(cfg, states, acts, i, j - 1, k);
  }

  /** The lines a subscription holds come from its latest scan. */
  lemma {:induction false} SweepHasScan(cfg: Config, states: seq<State>, acts: seq<Act>, j: nat, k: nat) returns (i: nat)
    requires IsRun(cfg, states, acts) && j < |states| && k < |states[j].subs| && Todo(states[j].subs[k]) != []
    ensures SweepOf(acts, k, i, j) && HoldsFrom(states, acts, k, i, states[j])
  {
    OneStepBack(cfg, states, acts, j, k);
    i := j - 1;
    if !Scans(acts[j - 1], k) {
      i := SweepHasScan(cfg, states, acts, j - 1, k);
      OneStepOn(cfg, states, acts, i, j, k);
    }
  }

  // ----- when a stamp is the counter -----

  /** While the group is kept, an entry's counter has moved on exactly when it was granted again. */
  lemma CounterMoves(cfg: Config, log: Log, next: Log, id: nat)
    requires LogInv(cfg, log) && LogInv(cfg, next) && log.losses == 0 == next.losses && log.grants <= next.grants
    requires log.group.Some? && next.group.Some? && id in log.group.value.pel && id in next.group.value.pel
    ensures log.group.value.pel[id].count <= next.group.value.pel[id].count
    ensures log.group.value.pel[id].count == next.group.value.pel[id].count
            <==> forall h :: |log.grants| <= h < |next.grants| ==> next.grants[h].id != id
  {
    var g, g' := log.group.value.pel[id].grant, next.group.value.pel[id].grant;
    assert log.grants[g] == next.grants[g] && next.grants[g].id == id && next.grants[g'].id == id;
    assert g <= g';
    if g' < |log.grants| {
      assert log.grants[g'] == next.grants[g'];
    }
  }

  lemma {:induction false} GrantsGrow(cfg: Config, states: seq<State>, acts: seq<Act>, i: nat, j: nat, t: nat)
    requires IsRun(cfg, states, acts) && i <= j < |states| && t < |states[i].logs|
    ensures |states[j].logs| == |states[i].logs| && states[i].logs[t].grants <= states[j].logs[t].grants
    decreases j - i
  {
    if i < j {
      Reachable(cfg, states, acts, i);
      assert StepAt(cfg, states, acts, i);
      StepExtends(cfg, states[i], acts[i], t);
      GrantsGrow(cfg, states, acts, i + 1, j, t);
    }
  }

  /** What a claim does on its stream. */
  lemma ClaimGrants(cfg: Config, st: State, k: nat, next: State)
    requires Follows(cfg, st, Local(k, OfClaimer(ClaimEntry)), next)
    ensures Live(st, k) && |next.logs| == |st.logs| && Todo(st.subs[k]) != []
    ensures var log, line := st.logs[st.subs[k].log], Todo(st.subs[k])[0];
            && log.group.Some? && line.id in log.group.value.pel
            && next.logs[st.subs[k].log].grants
               == log.grants + [Grant(line.id, log.group.value.pel[line.id].count + 1, st.now, false, k, line.count + 1)]
  {
  }

  /** On any number of instances, while the group is kept: a claimed delivery is stamped with the server's counter
      exactly when its entry was granted to nobody between the sweep's scan and the claim. */
  lemma StampExactIff(cfg: Config, states: seq<State>, acts: seq<Act>, j: nat, k: nat) returns (i: nat)
    requires IsRun(cfg, states, acts) && j < |acts| && acts[j] == Local(k, OfClaimer(ClaimEntry))
    requires Live(states[j], k) && states[j].logs[states[j].subs[k].log].losses == 0
    ensures SweepOf(acts, k, i, j) && states[j].subs[k].log < |states[i].logs| == |states[j + 1].logs|
    ensures var t := states[j].subs[k].log;
            var before, now, after := states[i].logs[t].grants, states[j].logs[t].grants, states[j + 1].logs[t].grants;
            && before <= now <= after && |after| == |now| + 1
            && (after[|now|].stamp == after[|now|].count
                <==> forall h :: |before| <= h < |now| ==> now[h].id != after[|now|].id)
  {
    assert StepAt(cfg, states, acts, j);
    ClaimGrants(cfg, states[j], k, states[j + 1]);
    i := SweepHasScan(cfg, states, acts, j, k);
    assert StepAt(cfg, states, acts, i);
    ScanTakesReply(cfg, states[i], acts[i], states[i + 1], k);
    var t, line := states[j].subs[k].log, Todo(states[j].subs[k])[0];
    GrantsGrow(cfg, states, acts, i, j, t);
    LossesGrow(cfg, states, acts, i, j, t);
    ReachableLog(cfg, states, acts, i, t);
    ReachableLog(cfg, states, acts, j, t);
    assert line in acts[i].a.c.reply;
    CounterMoves(cfg, states[i].logs[t], states[j].logs[t], line.id);
  }

  lemma ReachableLog(cfg: Config, states: seq<State>, acts: seq<Act>, i: nat, t: nat)
    requires IsRun(cfg, states, acts) && i < |states| && t < |states[i].logs|
    ensures LogInv(cfg, states[i].logs[t])
  {
    Reachable(cfg, states, acts, i);
  }

  // ----- attempts of one subscription grow -----

  /** One line per entry, each for a delivery that was made. */
  predicate Sorted(todo: seq<Snapshot>) {
    && (forall i, j :: 0 <= i < j < |todo| ==> todo[i].id < todo[j].id)
    && (forall i :: 0 <= i < |todo| ==> 1 <= todo[i].count)
  }

  ghost predicate AttemptsGrow(ds: seq<Delivery>) {
    && (forall n :: 0 <= n < |ds| ==> 1 <= ds[n].attempt)
    && (forall m, n :: 0 <= m < n < |ds| && ds[m].id == ds[n].id ==> ds[m].attempt < ds[n].attempt)
  }

  /** A line the subscription holds counts every attempt it has received of the entry. */
  ghost predicate LinesAhead(todo: seq<Snapshot>, ds: seq<Delivery>) {
    forall i, n :: 0 <= i < |todo| && 0 <= n < |ds| && todo[i].id == ds[n].id ==> ds[n].attempt <= todo[i].count
  }

  ghost predicate Growing(sub: Sub) {
    Sorted(Todo(sub)) && AttemptsGrow(sub.deliveries) && LinesAhead(Todo(sub), sub.deliveries)
  }

  /** A delivery's entry is behind the group's position, and its attempt does not exceed a pending counter. */
  lemma ReceivedBefore(cfg: Config, log: Log, k: nat, d: Delivery)
    requires LogInv(cfg, log) && log.losses == 0 && Granted(cfg, log, k, d)
    ensures log.group.Some? && d.id <= log.group.value.last
    ensures d.id in log.group.value.pel ==> d.attempt <= log.group.value.pel[d.id].count
  {
    if d.id in log.group.value.pel {
      CountersBelowLatest(log, d.id);
    }
  }

  lemma ReceivesGrowing(sub: Sub, d: Delivery, todo: seq<Snapshot>)
    requires Growing(sub) && 1 <= d.attempt && Sorted(todo) && LeftOf(todo, Todo(sub))
    requires forall n :: 0 <= n < |sub.deliveries| && sub.deliveries[n].id == d.id ==> sub.deliveries[n].attempt < d.attempt
    requires forall i :: 0 <= i < |todo| ==> todo[i].id != d.id
    ensures AttemptsGrow(sub.deliveries + [d]) && LinesAhead(todo, sub.deliveries + [d])
  {
    forall i | 0 <= i < |todo| ensures todo[i] == Todo(sub)[|Todo(sub)| - |todo| + i] {
    }
  }

  lemma ReadStaysGrowing(cfg: Config, env: Env, k: nat, v: View, a: ReadAct)
    requires LogInv(cfg, v.log) && v.log.losses == 0 && DeliveriesKept(cfg, env.closing, v.log, k, v.sub)
    requires SnapshotBehind(v.log, Todo(v.sub)) && ReadEnabled(cfg, env, v, a) && Growing(v.sub)
    ensures Growing(ReadStep(cfg, env, k, v, a).sub)
  {
    if a.ReadEntry? {
      forall n | 0 <= n < |v.sub.deliveries| ensures v.sub.deliveries[n].id != a.id {
        assert Granted(cfg, v.log, k, v.sub.deliveries[n]);
        ReceivedBefore(cfg, v.log, k, v.sub.deliveries[n]);
      }
      ReceivesGrowing(v.sub, Delivery(|v.log.grants|, a.id, 1, env.now, true, Idle, false, false, false), Todo(v.sub));
    }
  }

  /** Nothing received, no line added. */
  lemma StaysGrowing(sub: Sub, next: Sub)
    requires Growing(sub) && LeftOf(Todo(next), Todo(sub)) && |next.deliveries| == |sub.deliveries|
    requires forall n :: 0 <= n < |next.deliveries| ==>
               next.deliveries[n].id == sub.deliveries[n].id && next.deliveries[n].attempt == sub.deliveries[n].attempt
    ensures Growing(next)
  {
    forall i | 0 <= i < |Todo(next)| ensures Todo(next)[i] == Todo(sub)[|Todo(sub)| - |Todo(next)| + i] {
    }
  }

  lemma ScanStaysGrowing(cfg: Config, log: Log, now: nat, k: nat, sub: Sub, reply: seq<Snapshot>)
    requires LogInv(cfg, log) && log.losses == 0 && IsPendingReply(log, now, cfg.minIdle, CLAIM_BATCH, reply)
    requires forall n :: 0 <= n < |sub.deliveries| ==> Granted(cfg, log, k, sub.deliveries[n])
    ensures Sorted(reply) && LinesAhead(reply, sub.deliveries)
  {
    forall i, n | 0 <= i < |reply| && 0 <= n < |sub.deliveries| && reply[i].id == sub.deliveries[n].id
      ensures sub.deliveries[n].attempt <= reply[i].count
    {
      ReceivedBefore(cfg, log, k, sub.deliveries[n]);
    }
  }

  lemma ClaimStaysGrowing(cfg: Config, env: Env, k: nat, v: View)
    requires ClaimEnabled(cfg, env, v, ClaimEntry) && Growing(v.sub)
    ensures Growing(ClaimStep(cfg, env, k, v, ClaimEntry).sub)
  {
    var todo := Todo(v.sub);
    var d := Delivery(|v.log.grants|, todo[0].id, todo[0].count + 1, env.now, false, Idle, false, false, false);
    ReceivesGrowing(v.sub, d, todo[1..]);
    assert ClaimStep(cfg, env, k, v, ClaimEntry).sub.deliveries == v.sub.deliveries + [d];
  }

  lemma SweepStaysGrowing(cfg: Config, env: Env, k: nat, v: View, a: ClaimAct)
    requires LogInv(cfg, v.log) && v.log.losses == 0 && DeliveriesKept(cfg, env.closing, v.log, k, v.sub)
    requires ClaimEnabled(cfg, env, v, a) && Growing(v.sub)
    ensures Growing(ClaimStep(cfg, env, k, v, a).sub)
  {
    if a.ClaimScan? {
      ScanStaysGrowing(cfg, v.log, env.now, k, v.sub, a.reply);
    } else if a.ClaimEntry? {
      ClaimStaysGrowing(cfg, env, k, v);
    } else {
      SweepShrinks(cfg, env, k, v, a);
      assert ClaimStep(cfg, env, k, v, a).sub.deliveries == v.sub.deliveries;
      StaysGrowing(v.sub, ClaimStep(cfg, env, k, v, a).sub);
    }
  }

  lemma OtherStaysGrowing(cfg: Config, env: Env, k: nat, v: View, a: SubAct)
    requires Enabled(cfg, env, v, a) && !a.OfReader? && !a.OfClaimer? && Growing(v.sub)
    ensures Growing(Step(cfg, env, k, v, a).sub)
  {
    TodoShrinks(cfg, env, k, v, a);
    SameAttempts(cfg, env, k, v, a);
    StaysGrowing(v.sub, Step(cfg, env, k, v, a).sub);
  }

  lemma SameAttempts(cfg: Config, env: Env, k: nat, v: View, a: SubAct)
    requires Enabled(cfg, env, v, a) && !a.OfReader? && !a.OfClaimer?
    ensures var next := Step(cfg, env, k, v, a).sub;
            && |next.deliveries| == |v.sub.deliveries|
            && forall n :: 0 <= n < |next.deliveries| ==>
                 next.deliveries[n].id == v.sub.deliveries[n].id && next.deliveries[n].attempt == v.sub.deliveries[n].attempt
  {
    match a
    case OfEmit(who, e) => assert EmitStep(env, v, who, e).sub == Step(cfg, env, k, v, a).sub;
    case _ =>
  }

  lemma StepStaysGrowing(cfg: Config, st: State, a: Act, next: State, k: nat)
    requires SysInv(cfg, st) && Follows(cfg, st, a, next) && k < |st.subs| && st.subs[k].log < |st.logs|
    requires st.logs[st.subs[k].log].losses == 0 && Growing(st.subs[k])
    ensures k < |next.subs| && Growing(next.subs[k])
  {
    if a.Local? && a.k == k {
      assert SubOk(cfg, st, k) && LogInv(cfg, st.logs[st.subs[k].log]);
      match a.a
      case OfReader(r) => ReadStaysGrowing(cfg, EnvOf(st, k), k, ViewOf(st, k), r);
      case OfClaimer(c) => SweepStaysGrowing(cfg, EnvOf(st, k), k, ViewOf(st, k), c);
      case _ => OtherStaysGrowing(cfg, EnvOf(st, k), k, ViewOf(st, k), a.a);
    }
  }

  lemma NewStartsGrowing(cfg: Config, st: State, a: Act, next: State, k: nat)
    requires Follows(cfg, st, a, next) && |st.subs| <= k < |next.subs|
    ensures Growing(next.subs[k])
  {
  }

  lemma HomeBefore(cfg: Config, st: State, a: Act, next: State, k: nat)
    requires Follows(cfg, st, a, next) && k < |st.subs|
    ensures k < |next.subs| && next.subs[k].log == st.subs[k].log && next.subs[k].inst == st.subs[k].inst
    ensures |next.logs| == |st.logs|
    ensures !(a.Local? && a.k == k) ==> next.subs[k] == st.subs[k]
  {
    if a.Local? {
      StepStaysHome(cfg, EnvOf(st, a.k), a.k, ViewOf(st, a.k), a.a);
    }
  }

  /** On any number of instances, while the group is kept: the attempts a subscription receives of an entry strictly
      grow, stale or not. */
  lemma {:induction false} SubscriptionAttemptsGrow(cfg: Config, states: seq<State>, acts: seq<Act>, i: nat, k: nat)
    requires IsRun(cfg, states, acts) && i < |states| && k < |states[i].subs|
    requires states[i].subs[k].log < |states[i].logs| && states[i].logs[states[i].subs[k].log].losses == 0
    ensures Growing(states[i].subs[k])
  {
    assert states[0].subs == [];
    assert StepAt(cfg, states, acts, i - 1);
    var st, a, next := states[i - 1], acts[i - 1], states[i];
    if k < |st.subs| {
      HomeBefore(cfg, st, a, next, k);
      LossesGrow(cfg, states, acts, i - 1, i, st.subs[k].log);
      SubscriptionAttemptsGrow(cfg, states, acts, i - 1, k);
      Reachable(cfg, states, acts, i - 1);
      StepStaysGrowing(cfg, st, a, next, k);
    } else {
      NewStartsGrowing(cfg, st, a, next, k);
    }
  }
}
