/** What a stream's fields mean: which steps change them, so that an entry leaves the stream, the pending list or the set
    of open entries for one reason only, and is passed over by the group for none. */
module ConsumeStream {
  import opened Basics
  import opened RedisStream
  import opened Subscriber
  import opened ConsumeSystem
  import opened ConsumeSafety

  // ----- the steps that settle -----

  /** The entry whose handler returned nil without a dead letter, in a delivery within the cap. */
  function HandledBy(cfg: Config, sub: Sub, a: SubAct): Option<nat> {
    match a
    case OfMessage(n, Return(true)) =>
      if n < |sub.deliveries| && sub.deliveries[n].run.Running? && sub.deliveries[n].run.letter.NoLetter?
         && sub.deliveries[n].attempt <= cfg.cap
      then Some(sub.deliveries[n].id) else None
    case _ => None
  }

  /** The entry whose dead letter reaches the DLQ. */
  function LetteredBy(sub: Sub, a: SubAct): Option<nat> {
    match a
    case OfMessage(n, PublishLetter(_, true)) => if n < |sub.deliveries| then Some(sub.deliveries[n].id) else None
    case OfEmit(who, Hook(_, true)) =>
      if Emitting(sub, who) then Some(sub.deliveries[Current(sub, who).value].id) else None
    case _ => None
  }

  function AsSet(id: Option<nat>): set<nat> {
    match id case Some(n) => {n} case None => {}
  }

  function AsSeq(id: Option<nat>): seq<nat> {
    match id case Some(n) => [n] case None => []
  }

  /** What a step of a subscription does to its stream. */
  lemma OwnStepSettles(cfg: Config, env: Env, k: nat, v: View, a: SubAct)
    requires Enabled(cfg, env, v, a)
    ensures var next := Step(cfg, env, k, v, a).log;
            && next.entries == v.log.entries && next.nextId == v.log.nextId && next.undecodable == v.log.undecodable
            && next.handled == v.log.handled + AsSet(HandledBy(cfg, v.sub, a))
            && next.dlq == v.log.dlq + AsSeq(LetteredBy(v.sub, a))
  {
    match a
    case OfReader(r) => assert ReadStep(cfg, env, k, v, r).log == Step(cfg, env, k, v, a).log;
    case OfClaimer(c) => assert ClaimStep(cfg, env, k, v, c).log == Step(cfg, env, k, v, a).log;
    case OfEmit(who, e) => assert EmitStep(env, v, who, e).log == Step(cfg, env, k, v, a).log;
    case OfEnd(z) =>
    case OfMessage(n, m) =>
  }

  lemma OwnStepMovesGroup(cfg: Config, env: Env, k: nat, v: View, a: SubAct)
    requires Enabled(cfg, env, v, a) && v.log.group.Some?
    ensures var next := Step(cfg, env, k, v, a).log;
            && next.group.Some?
            && (forall id :: id in v.log.group.value.pel && id !in next.group.value.pel ==> Acknowledged(v.sub, a) == Some(id))
            && (next.group.value.last != v.log.group.value.last ==>
                 IsNext(v.log, next.group.value.last) && |next.grants| == |v.log.grants| + 1
                 && next.grants[|v.log.grants|].id == next.group.value.last)
  {
    match a
    case OfReader(r) => assert ReadStep(cfg, env, k, v, r).log == Step(cfg, env, k, v, a).log;
    case OfClaimer(c) => assert ClaimStep(cfg, env, k, v, c).log == Step(cfg, env, k, v, a).log;
    case OfEmit(who, e) => assert EmitStep(env, v, who, e).log == Step(cfg, env, k, v, a).log;
    case OfEnd(z) =>
    case OfMessage(n, m) =>
  }

  /** The action is a step of a subscription of stream `t`. */
  predicate Own(st: State, a: Act, t: nat) {
    a.Local? && a.k < |st.subs| && st.subs[a.k].log == t
  }

  /** What any step does to a stream. */
  lemma StreamSettles(cfg: Config, st: State, a: Act, next: State, t: nat)
    requires Follows(cfg, st, a, next) && t < |st.logs|
    ensures |next.logs| == |st.logs|
    ensures var log, log' := st.logs[t], next.logs[t];
            && log'.entries == (if a.PublishEvent? && a.t == t then log.entries + {log.nextId}
                                else if a.LoseStream? && a.t == t then {} else log.entries)
            && log'.handled == log.handled + (if Own(st, a, t) then AsSet(HandledBy(cfg, st.subs[a.k], a.a)) else {})
            && log'.dlq == log.dlq + (if Own(st, a, t) then AsSeq(LetteredBy(st.subs[a.k], a.a)) else [])
  {
    if a.Local? {
      OwnStepSettles(cfg, EnvOf(st, a.k), a.k, ViewOf(st, a.k), a.a);
    }
  }

  lemma StreamMovesGroup(cfg: Config, st: State, a: Act, next: State, t: nat)
    requires Follows(cfg, st, a, next) && t < |st.logs| && st.logs[t].group.Some?
    ensures |next.logs| == |st.logs|
    ensures next.logs[t].group.None? <==> (a.LoseGroup? || a.LoseStream?) && a.t == t
    ensures var log, log' := st.logs[t], next.logs[t];
            log'.group.Some? ==>
              && (forall id :: id in log.group.value.pel && id !in log'.group.value.pel ==>
                   Own(st, a, t) && Acknowledged(st.subs[a.k], a.a) == Some(id))
              && (log'.group.value.last != log.group.value.last ==>
                   IsNext(log, log'.group.value.last) && |log'.grants| == |log.grants| + 1
                   && log'.grants[|log.grants|].id == log'.group.value.last)
  {
    if Own(st, a, t) {
      OwnStepMovesGroup(cfg, EnvOf(st, a.k), a.k, ViewOf(st, a.k), a.a);
    }
  }

  // ----- over runs -----

  /** An entry stays on its stream until the stream is deleted. */
  lemma {:induction false} EntriesStay(cfg: Config, states: seq<State>, acts: seq<Act>, i: nat, j: nat, t: nat, id: nat)
    requires IsRun(cfg, states, acts) && i <= j < |states| && t < |states[i].logs| && id in states[i].logs[t].entries
    requires forall m :: i <= m < j ==> acts[m] != LoseStream(t)
    ensures t < |states[j].logs| && id in states[j].logs[t].entries
    decreases j
  {
    if i < j {
      EntriesStay(cfg, states, acts, i, j - 1, t, id);
      assert StepAt(cfg, states, acts, j - 1);
      StreamSettles(cfg, states[j - 1], acts[j - 1], states[j], t);
    }
  }

  /** A settled entry was settled by a handler that returned nil within the cap, or by a dead letter that was written. */
  lemma {:induction false} SettledByVerdict(cfg: Config, states: seq<State>, acts: seq<Act>, i: nat, t: nat, id: nat)
    returns (m: nat)
    requires IsRun(cfg, states, acts) && i < |states| && t < |states[i].logs| && Settled(states[i].logs[t], id)
    ensures m < i && acts[m].Local? && acts[m].k < |states[m].subs| && states[m].subs[acts[m].k].log == t
    ensures var sub, a := states[m].subs[acts[m].k], acts[m].a; Some(id) in {HandledBy(cfg, sub, a), LetteredBy(sub, a)}
  {
    if i == 0 {
      assert false;
    } else {
      assert StepAt(cfg, states, acts, i - 1);
      LogsSame(cfg, states, acts, i - 1);
      StreamSettles(cfg, states[i - 1], acts[i - 1], states[i], t);
      m := i - 1;
      if Settled(states[i - 1].logs[t], id) {
        m := SettledByVerdict(cfg, states, acts, i - 1, t, id);
      }
    }
  }

  lemma LogsSame(cfg: Config, states: seq<State>, acts: seq<Act>, i: nat)
    requires IsRun(cfg, states, acts) && i < |acts|
    ensures |states[i + 1].logs| == |states[i].logs|
  {
    assert StepAt(cfg, states, acts, i);
  }

  /** An entry leaves the pending list only with the group, or by an XACK of a subscription that had settled it. */
  lemma {:induction false} PendingUntilAcked(cfg: Config, states: seq<State>, acts: seq<Act>, i: nat, j: nat, t: nat, id: nat)
    returns (m: nat)
    requires IsRun(cfg, states, acts) && i < j < |states| && t < |states[i].logs| && states[i].logs[t].group.Some?
    requires id in states[i].logs[t].group.value.pel
    requires t < |states[j].logs| && states[j].logs[t].losses == states[i].logs[t].losses
    requires states[j].logs[t].group.None? || id !in states[j].logs[t].group.value.pel
    ensures i <= m < j && t < |states[m].logs| && Own(states[m], acts[m], t)
    ensures Acknowledged(states[m].subs[acts[m].k], acts[m].a) == Some(id) && Settled(states[m].logs[t], id)
    decreases j - i
  {
    assert StepAt(cfg, states, acts, j - 1);
    LogsSame(cfg, states, acts, j - 1);
    m := j - 1;
    if i == j - 1 {
      GroupSurvives(cfg, states, acts, i, j, t);
      StreamMovesGroup(cfg, states[i], acts[i], states[j], t);
      AcksOnlySettled(cfg, states, acts, m);
    } else {
      LossesGrow(cfg, states, acts, i, j - 1, t);
      LossesGrow(cfg, states, acts, j - 1, j, t);
      GroupSurvives(cfg, states, acts, i, j - 1, t);
      if id !in states[j - 1].logs[t].group.value.pel {
        m := PendingUntilAcked(cfg, states, acts, i, j - 1, t, id);
      } else {
        m := PendingUntilAcked(cfg, states, acts, j - 1, j, t, id);
      }
    }
  }

  ghost predicate SomeGrant(grants: seq<Grant>, id: nat) {
    exists g :: 0 <= g < |grants| && grants[g].id == id
  }

  lemma SomeGrantStays(grants: seq<Grant>, more: seq<Grant>, id: nat)
    requires grants <= more && SomeGrant(grants, id)
    ensures SomeGrant(more, id)
  {
    var g :| 0 <= g < |grants| && grants[g].id == id;
    assert more[g].id == id;
  }

  /** Every entry up to the group's position was granted. */
  ghost predicate PassedGranted(log: Log) {
    log.group.Some? ==> forall id :: id in log.entries && id <= log.group.value.last ==> SomeGrant(log.grants, id)
  }

  lemma PassedGrantedOn(cfg: Config, st: State, a: Act, next: State, t: nat)
    requires SysInv(cfg, st) && Follows(cfg, st, a, next) && t < |st.logs| == |next.logs|
    requires PassedGranted(st.logs[t]) && st.logs[t].group.Some? && next.logs[t].group.Some?
    ensures PassedGranted(next.logs[t])
  {
    StreamSettles(cfg, st, a, next, t);
    StreamMovesGroup(cfg, st, a, next, t);
    StepExtends(cfg, st, a, t);
    var log, log' := st.logs[t], next.logs[t];
    assert LogInv(cfg, log);
    forall id | id in log'.entries && id <= log'.group.value.last ensures SomeGrant(log'.grants, id) {
      if id in log.entries && id <= log.group.value.last {
        SomeGrantStays(log.grants, log'.grants, id);
      } else if log'.group.value.last != log.group.value.last {
        assert log'.grants[|log.grants|].id == id;
      }
    }
  }

  lemma {:induction false} RunPassesGranted(cfg: Config, states: seq<State>, acts: seq<Act>, i: nat, t: nat)
    requires IsRun(cfg, states, acts) && i < |states| && t < |states[i].logs| && states[i].logs[t].losses == 0
    ensures PassedGranted(states[i].logs[t])
  {
    if i > 0 && states[i].logs[t].group.Some? {
      assert StepAt(cfg, states, acts, i - 1);
      LogsSame(cfg, states, acts, i - 1);
      LossesGrow(cfg, states, acts, i - 1, i, t);
      if states[i - 1].logs[t].group.Some? {
        RunPassesGranted(cfg, states, acts, i - 1, t);
        Reachable(cfg, states, acts, i - 1);
        PassedGrantedOn(cfg, states[i - 1], acts[i - 1], states[i], t);
      } else {
        CreatedAtStart(cfg, states[i - 1], acts[i - 1], states[i], t);
        EntriesNumbered(cfg, states, acts, i, t);
      }
    }
  }

  lemma EntriesNumbered(cfg: Config, states: seq<State>, acts: seq<Act>, i: nat, t: nat)
    requires IsRun(cfg, states, acts) && i < |states| && t < |states[i].logs|
    ensures forall id :: id in states[i].logs[t].entries ==> 1 <= id
  {
    Reachable(cfg, states, acts, i);
    assert LogInv(cfg, states[i].logs[t]);
  }

  /** While the group is kept, its position passes over no entry: every entry up to it was granted. */
  lemma NothingSkipped(cfg: Config, states: seq<State>, acts: seq<Act>, i: nat, t: nat, id: nat)
    requires IsRun(cfg, states, acts) && i < |states| && t < |states[i].logs| && states[i].logs[t].losses == 0
    requires states[i].logs[t].group.Some?
    requires id in states[i].logs[t].entries && id <= states[i].logs[t].group.value.last
    ensures exists g :: 0 <= g < |states[i].logs[t].grants| && states[i].logs[t].grants[g].id == id
  {
    RunPassesGranted(cfg, states, acts, i, t);
    assert SomeGrant(states[i].logs[t].grants, id);
  }

  /** A group that appears starts before the first entry, with nothing pending. */
  lemma CreatedAtStart(cfg: Config, st: State, a: Act, next: State, t: nat)
    requires Follows(cfg, st, a, next) && t < |st.logs| == |next.logs|
    requires st.logs[t].group.None? && next.logs[t].group.Some?
    ensures next.logs[t].group.value == Group(0, map[])
  {
  }

  // ----- what a scan and a read must bring -----

  /** A scan lists exactly the claimable entries, or the first hundred of them; in particular one that lists nothing means
      that nothing is claimable. */
  lemma ScanListsIdle(cfg: Config, env: Env, v: View, reply: seq<Snapshot>, id: nat)
    requires ClaimEnabled(cfg, env, v, ClaimScan(reply))
    ensures (exists i :: 0 <= i < |reply| && reply[i].id == id) ==> Claimable(v.log, env.now, cfg.minIdle, id)
    ensures Claimable(v.log, env.now, cfg.minIdle, id) && |reply| < 100 ==> exists i :: 0 <= i < |reply| && reply[i].id == id
    ensures Claimable(v.log, env.now, cfg.minIdle, id) && |reply| == 100 ==>
              (exists i :: 0 <= i < |reply| && reply[i].id == id) || forall i :: 0 <= i < |reply| ==> reply[i].id < id
    ensures |reply| <= 100
  {
  }

  lemma {:induction false} FirstAbove(entries: set<nat>, last: nat, id: nat, above: nat) returns (first: nat)
    requires id in entries && last < id && above <= id && forall other :: other in entries && last < other ==> above <= other
    ensures first in entries && last < first && forall other :: other in entries && last < other ==> first <= other
    decreases id - above
  {
    if above in entries && last < above {
      first := above;
    } else {
      first := FirstAbove(entries, last, id, above + 1);
    }
  }

  /** A read comes back empty exactly when the group is there and has passed every entry; otherwise there is a next
      entry it can return. */
  lemma EmptyReadIff(cfg: Config, env: Env, v: View) returns (next: nat)
    requires v.sub.reader.RRead? && v.log.group.Some?
    ensures ReadEnabled(cfg, env, v, ReadNothing(Nothing)) <==>
              forall id :: id in v.log.entries ==> id <= v.log.group.value.last
    ensures !ReadEnabled(cfg, env, v, ReadNothing(Nothing)) ==> ReadEnabled(cfg, env, v, ReadEntry(next))
  {
    next := 0;
    if id :| id in v.log.entries && v.log.group.value.last < id {
      next := FirstAbove(v.log.entries, v.log.group.value.last, id, 0);
    }
  }

  /** A claim gets its entry exactly when that is pending and has been idle for ClaimMinIdle, and otherwise nothing. */
  lemma ClaimGetsIff(cfg: Config, env: Env, v: View)
    requires v.sub.claimer.CClaim? && v.sub.claimer.todo != [] && v.log.group.Some?
    ensures var pel, id := v.log.group.value.pel, v.sub.claimer.todo[0].id;
            && (ClaimEnabled(cfg, env, v, ClaimEntry) <==> id in pel && pel[id].at + cfg.minIdle <= env.now)
            && (ClaimEnabled(cfg, env, v, ClaimNothing(Nothing)) <==> !ClaimEnabled(cfg, env, v, ClaimEntry))
  {
  }
}
