/** How far stale snapshots stretch the cap: with any number of instances, the deliveries of an entry that pass the
    cap check exceed MaxDeliveryAttempts by less than the number of subscriptions, and that bound is reached. */
module ConsumeStale {
  import opened Basics
  import opened RedisStream
  import opened Subscriber
  import opened SubscriberInvariant
  import opened ConsumeSystem
  import opened ConsumeSafety
  import opened ConsumeAttempts
  import opened ConsumeStamps

  // ----- counters and lines -----

  /** The counter of the entry's latest grant, 0 before the first. */
  function Counter(grants: seq<Grant>, id: nat): nat {
    if grants == [] then 0
    else if grants[|grants| - 1].id == id then grants[|grants| - 1].count
    else Counter(grants[..|grants| - 1], id)
  }

  lemma {:induction false} CounterOfLatest(grants: seq<Grant>, id: nat, g: nat)
    requires g < |grants| && grants[g].id == id && forall h :: g < h < |grants| ==> grants[h].id != id
    ensures Counter(grants, id) == grants[g].count
  {
    if g < |grants| - 1 {
      CounterOfLatest(grants[..|grants| - 1], id, g);
    }
  }

  lemma {:induction false} CounterOfNone(grants: seq<Grant>, id: nat)
    requires forall h :: 0 <= h < |grants| ==> grants[h].id != id
    ensures Counter(grants, id) == 0
  {
    if grants != [] {
      CounterOfNone(grants[..|grants| - 1], id);
    }
  }

  /** The server's counter of a pending entry is that of its latest grant, and an undelivered one has none. */
  lemma CounterIsServers(cfg: Config, log: Log, id: nat)
    requires LogInv(cfg, log) && log.losses == 0 && log.group.Some?
    ensures id in log.group.value.pel ==> Counter(log.grants, id) == log.group.value.pel[id].count
    ensures log.group.value.last < id ==> Counter(log.grants, id) == 0
  {
    if id in log.group.value.pel {
      CounterOfLatest(log.grants, id, log.group.value.pel[id].grant);
    } else if log.group.value.last < id {
      CounterOfNone(log.grants, id);
    }
  }

  /** The subscription holds a line for the entry that would be stamped within the cap. */
  predicate HoldsLine(todo: seq<Snapshot>, id: nat, cap: int) {
    exists i :: 0 <= i < |todo| && todo[i].id == id && todo[i].count < cap
  }

  predicate Holder(sub: Sub, t: nat, id: nat, cap: int) {
    sub.log == t && HoldsLine(Todo(sub), id, cap)
  }

  function Holders(subs: seq<Sub>, t: nat, id: nat, cap: int): nat {
    if subs == [] then 0 else Holders(subs[..|subs| - 1], t, id, cap) + One(Holder(subs[|subs| - 1], t, id, cap))
  }

  function Subscribed(subs: seq<Sub>, t: nat): nat {
    if subs == [] then 0 else Subscribed(subs[..|subs| - 1], t) + One(subs[|subs| - 1].log == t)
  }

  lemma {:induction false} HoldersUpdate(subs: seq<Sub>, k: nat, sub: Sub, t: nat, id: nat, cap: int)
    requires k < |subs|
    ensures Holders(subs[k := sub], t, id, cap) + One(Holder(subs[k], t, id, cap))
         == Holders(subs, t, id, cap) + One(Holder(sub, t, id, cap))
    ensures sub.log == subs[k].log ==> Subscribed(subs[k := sub], t) == Subscribed(subs, t)
  {
    var after := subs[k := sub];
    if k == |subs| - 1 {
      assert after[..|subs| - 1] == subs[..|subs| - 1];
    } else {
      assert after[..|subs| - 1] == subs[..|subs| - 1][k := sub];
      HoldersUpdate(subs[..|subs| - 1], k, sub, t, id, cap);
    }
  }

  lemma {:induction false} HoldersSubscribe(subs: seq<Sub>, t: nat, id: nat, cap: int)
    ensures Holders(subs, t, id, cap) <= Subscribed(subs, t)
  {
    if subs != [] {
      HoldersSubscribe(subs[..|subs| - 1], t, id, cap);
    }
  }

  lemma {:induction false} OneHoldsNone(subs: seq<Sub>, k: nat, t: nat, id: nat, cap: int)
    requires k < |subs| && subs[k].log == t && !Holder(subs[k], t, id, cap)
    ensures Holders(subs, t, id, cap) + 1 <= Subscribed(subs, t)
  {
    if k == |subs| - 1 {
      HoldersSubscribe(subs[..|subs| - 1], t, id, cap);
    } else {
      OneHoldsNone(subs[..|subs| - 1], k, t, id, cap);
    }
  }

  // ----- what one step does to them -----

  /** A step of a subscription either grants nothing and gives it no line it could use, unless the counter is below
      the cap; or grants one delivery, and then its lines for that entry are used up, and a stamp within the cap came
      from such a line. */
  ghost predicate UsesLines(cap: int, log: Log, next: Log, todo: seq<Snapshot>, todo': seq<Snapshot>, id: nat) {
    || (next.grants == log.grants
        && (HoldsLine(todo', id, cap) ==> HoldsLine(todo, id, cap) || Counter(log.grants, id) < cap))
    || (|next.grants| == |log.grants| + 1 && next.grants[..|log.grants|] == log.grants
        && var grant := next.grants[|log.grants|];
           if grant.id != id then HoldsLine(todo', id, cap) ==> HoldsLine(todo, id, cap)
           else && !HoldsLine(todo', id, cap)
                && grant.count == Counter(log.grants, id) + 1
                && (1 <= grant.stamp <= cap ==> HoldsLine(todo, id, cap) || Counter(log.grants, id) < cap))
  }

  lemma LeftHoldsLess(todo: seq<Snapshot>, more: seq<Snapshot>, id: nat, cap: int)
    requires LeftOf(todo, more) && HoldsLine(todo, id, cap)
    ensures HoldsLine(more, id, cap)
  {
    var i :| 0 <= i < |todo| && todo[i].id == id && todo[i].count < cap;
    assert more[|more| - |todo| + i] == todo[i];
  }

  lemma ReadUsesLines(cfg: Config, env: Env, k: nat, v: View, a: ReadAct, id: nat)
    requires LogInv(cfg, v.log) && v.log.losses == 0 && SnapshotBehind(v.log, Todo(v.sub)) && ReadEnabled(cfg, env, v, a)
    ensures var next := ReadStep(cfg, env, k, v, a);
            UsesLines(cfg.cap, v.log, next.log, Todo(v.sub), Todo(next.sub), id)
  {
    if v.log.group.Some? {
      CounterIsServers(cfg, v.log, id);
    }
  }

  /** A claim uses up the head of the sweep; what is left holds no line of the head's entry. */
  lemma HeadUsedUp(todo: seq<Snapshot>, id: nat, cap: int)
    requires todo != [] && Sorted(todo)
    ensures Sorted(todo[1..]) && (HoldsLine(todo[1..], id, cap) ==> HoldsLine(todo, id, cap) && id != todo[0].id)
  {
    if HoldsLine(todo[1..], id, cap) {
      LeftHoldsLess(todo[1..], todo, id, cap);
    }
  }

  lemma ClaimUsesHead(cfg: Config, env: Env, k: nat, v: View, a: ClaimAct, id: nat)
    requires LogInv(cfg, v.log) && v.log.losses == 0 && Sorted(Todo(v.sub)) && ClaimEnabled(cfg, env, v, a)
    requires a.ClaimEntry? || a.ClaimReplyLost?
    ensures var next := ClaimStep(cfg, env, k, v, a);
            UsesLines(cfg.cap, v.log, next.log, Todo(v.sub), Todo(next.sub), id) && Sorted(Todo(next.sub))
  {
    CounterIsServers(cfg, v.log, id);
    var todo := Todo(v.sub);
    assert Todo(ClaimStep(cfg, env, k, v, a).sub) == todo[1..];
    HeadUsedUp(todo, id, cfg.cap);
  }

  /** A scan brings lines that carry the server's counters. */
  lemma ScanUsesLines(cfg: Config, env: Env, k: nat, v: View, reply: seq<Snapshot>, id: nat)
    requires LogInv(cfg, v.log) && v.log.losses == 0 && ClaimEnabled(cfg, env, v, ClaimScan(reply))
    ensures var next := ClaimStep(cfg, env, k, v, ClaimScan(reply));
            UsesLines(cfg.cap, v.log, next.log, Todo(v.sub), Todo(next.sub), id) && Sorted(Todo(next.sub))
  {
    CounterIsServers(cfg, v.log, id);
    assert Todo(ClaimStep(cfg, env, k, v, ClaimScan(reply)).sub) == reply;
  }

  lemma OnlyDropped(cap: int, log: Log, next: Log, todo: seq<Snapshot>, todo': seq<Snapshot>, id: nat)
    requires next.grants == log.grants && LeftOf(todo', todo) && Sorted(todo)
    ensures UsesLines(cap, log, next, todo, todo', id) && Sorted(todo')
  {
    if HoldsLine(todo', id, cap) {
      LeftHoldsLess(todo', todo, id, cap);
    }
  }

  /** Every other step of the sweep only drops lines. */
  lemma DropUsesLines(cfg: Config, env: Env, k: nat, v: View, a: ClaimAct, id: nat)
    requires ClaimEnabled(cfg, env, v, a) && Sorted(Todo(v.sub))
    requires !a.ClaimEntry? && !a.ClaimReplyLost? && !a.ClaimScan?
    ensures var next := ClaimStep(cfg, env, k, v, a);
            UsesLines(cfg.cap, v.log, next.log, Todo(v.sub), Todo(next.sub), id) && Sorted(Todo(next.sub))
  {
    var next := ClaimStep(cfg, env, k, v, a);
    TodoShrinks(cfg, env, k, v, OfClaimer(a));
    OnlyDropped(cfg.cap, v.log, next.log, Todo(v.sub), Todo(next.sub), id);
  }

  lemma SweepUsesLines(cfg: Config, env: Env, k: nat, v: View, a: ClaimAct, id: nat)
    requires LogInv(cfg, v.log) && v.log.losses == 0 && Sorted(Todo(v.sub)) && ClaimEnabled(cfg, env, v, a)
    ensures var next := ClaimStep(cfg, env, k, v, a);
            UsesLines(cfg.cap, v.log, next.log, Todo(v.sub), Todo(next.sub), id) && Sorted(Todo(next.sub))
  {
    if a.ClaimEntry? || a.ClaimReplyLost? {
      ClaimUsesHead(cfg, env, k, v, a, id);
    } else if a.ClaimScan? {
      ScanUsesLines(cfg, env, k, v, a.reply, id);
    } else {
      DropUsesLines(cfg, env, k, v, a, id);
    }
  }

  lemma OtherUsesLines(cfg: Config, env: Env, k: nat, v: View, a: SubAct, id: nat)
    requires Enabled(cfg, env, v, a) && !a.OfReader? && !a.OfClaimer? && Sorted(Todo(v.sub))
    ensures var next := Step(cfg, env, k, v, a);
            UsesLines(cfg.cap, v.log, next.log, Todo(v.sub), Todo(next.sub), id) && Sorted(Todo(next.sub))
  {
    var next := Step(cfg, env, k, v, a);
    TodoShrinks(cfg, env, k, v, a);
    OnlyDropped(cfg.cap, v.log, next.log, Todo(v.sub), Todo(next.sub), id);
  }

  lemma StepUsesLines(cfg: Config, env: Env, k: nat, v: View, a: SubAct, id: nat)
    requires LogInv(cfg, v.log) && v.log.losses == 0 && SnapshotBehind(v.log, Todo(v.sub)) && Sorted(Todo(v.sub))
    requires Enabled(cfg, env, v, a)
    ensures var next := Step(cfg, env, k, v, a);
            UsesLines(cfg.cap, v.log, next.log, Todo(v.sub), Todo(next.sub), id) && Sorted(Todo(next.sub))
  {
    match a
    case OfReader(r) => ReadUsesLines(cfg, env, k, v, r, id);
    case OfClaimer(c) => SweepUsesLines(cfg, env, k, v, c, id);
    case _ => OtherUsesLines(cfg, env, k, v, a, id);
  }

  // ----- the accounts of an entry -----

  /** The subscriptions that can hold a stale line when the counter reaches the cap: all but one, and none at a cap of 1,
      since a line counts at least one delivery. */
  function Slack(cap: int, subs: seq<Sub>, t: nat): int {
    if cap == 1 then 0 else Subscribed(subs, t) - 1
  }

  /** Below the cap every delivery raised the counter; from then on each further one within the cap uses up a line
      that some subscription held when the counter reached the cap. */
  ghost predicate Within(cap: int, grants: seq<Grant>, subs: seq<Sub>, t: nat, id: nat) {
    var c, w := Counter(grants, id), WithinCap(grants, id, cap, |grants|);
    if c < cap then w <= c else w + Holders(subs, t, id, cap) <= cap + Slack(cap, subs, t)
  }

  ghost predicate BooksBalance(cfg: Config, st: State, t: nat, id: nat) {
    && t < |st.logs|
    && Within(cfg.cap, st.logs[t].grants, st.subs, t, id)
    && forall k :: 0 <= k < |st.subs| && st.subs[k].log == t ==> Sorted(Todo(st.subs[k]))
  }

  lemma {:induction false} WithinCapPrefix(grants: seq<Grant>, more: seq<Grant>, id: nat, cap: int, upTo: nat)
    requires upTo <= |grants| && grants <= more
    ensures WithinCap(grants, id, cap, upTo) == WithinCap(more, id, cap, upTo)
  {
    if upTo > 0 {
      WithinCapPrefix(grants, more, id, cap, upTo - 1);
      assert grants[upTo - 1] == more[upTo - 1];
    }
  }

  lemma OneGrantMore(grants: seq<Grant>, grant: Grant, id: nat, cap: int)
    ensures var more := grants + [grant];
            && WithinCap(more, id, cap, |more|)
               == WithinCap(grants, id, cap, |grants|) + One(grant.id == id && 1 <= grant.stamp <= cap)
            && Counter(more, id) == if grant.id == id then grant.count else Counter(grants, id)
  {
    var more := grants + [grant];
    assert more[..|grants|] == grants;
    WithinCapPrefix(grants, more, id, cap, |grants|);
  }

  lemma {:induction false} NoneHoldAtOne(subs: seq<Sub>, t: nat, id: nat)
    requires forall k :: 0 <= k < |subs| && subs[k].log == t ==> Sorted(Todo(subs[k]))
    ensures Holders(subs, t, id, 1) == 0
  {
    if subs != [] {
      NoneHoldAtOne(subs[..|subs| - 1], t, id);
    }
  }

  /** The books balance after a step of subscription `k` on its stream. */
  lemma StepKeepsWithin(cap: int, log: Log, next: Log, subs: seq<Sub>, k: nat, sub: Sub, t: nat, id: nat)
    requires 1 <= cap && k < |subs| && subs[k].log == t == sub.log && Within(cap, log.grants, subs, t, id)
    requires forall j :: 0 <= j < |subs| && subs[j].log == t ==> Sorted(Todo(subs[j]))
    requires Sorted(Todo(sub))
    requires UsesLines(cap, log, next, Todo(subs[k]), Todo(sub), id)
    ensures Within(cap, next.grants, subs[k := sub], t, id)
  {
    HoldersUpdate(subs, k, sub, t, id, cap);
    HoldersSubscribe(subs[k := sub], t, id, cap);
    if cap == 1 {
      NoneHoldAtOne(subs[k := sub], t, id);
      NoneHoldAtOne(subs, t, id);
    }
    if next.grants != log.grants {
      var grant := next.grants[|log.grants|];
      assert next.grants == log.grants + [grant];
      OneGrantMore(log.grants, grant, id, cap);
      if grant.id == id {
        OneHoldsNone(subs[k := sub], k, t, id, cap);
      }
    }
  }

  lemma LocalKeepsAccounts(cfg: Config, st: State, k: nat, a: SubAct, t: nat, id: nat)
    requires SysInv(cfg, st) && ActEnabled(cfg, st, Local(k, a)) && BooksBalance(cfg, st, t, id)
    requires st.logs[t].losses == 0 && 1 <= cfg.cap
    ensures BooksBalance(cfg, Next(cfg, st, Local(k, a)), t, id)
  {
    var v, next := ViewOf(st, k), Step(cfg, EnvOf(st, k), k, ViewOf(st, k), a);
    StepStaysHome(cfg, EnvOf(st, k), k, v, a);
    assert SubOk(cfg, st, k) && LogInv(cfg, st.logs[t]);
    if st.subs[k].log == t {
      StepUsesLines(cfg, EnvOf(st, k), k, v, a, id);
      StepKeepsWithin(cfg.cap, v.log, next.log, st.subs, k, next.sub, t, id);
    } else {
      HoldersUpdate(st.subs, k, next.sub, t, id, cfg.cap);
    }
  }

  lemma NewSubHoldsNone(subs: seq<Sub>, i: nat, s: nat, claims: bool, t: nat, id: nat, cap: int)
    ensures var more := subs + [NewSub(i, s, claims)];
            Holders(more, t, id, cap) == Holders(subs, t, id, cap) && Subscribed(more, t) >= Subscribed(subs, t)
  {
    assert (subs + [NewSub(i, s, claims)])[..|subs|] == subs;
  }

  lemma EnvironmentKeepsAccounts(cfg: Config, st: State, a: Act, t: nat, id: nat)
    requires ActEnabled(cfg, st, a) && !a.Local? && BooksBalance(cfg, st, t, id)
    ensures BooksBalance(cfg, Next(cfg, st, a), t, id)
  {
    EnvironmentLeavesCounters(cfg, st, a, t);
    if a.Subscribe? {
      NewSubHoldsNone(st.subs, a.i, a.t, a.claims, t, id, cfg.cap);
    }
  }

  lemma StepKeepsAccounts(cfg: Config, st: State, a: Act, next: State, t: nat, id: nat)
    requires SysInv(cfg, st) && Follows(cfg, st, a, next) && BooksBalance(cfg, st, t, id)
    requires st.logs[t].losses == 0 && 1 <= cfg.cap
    ensures BooksBalance(cfg, next, t, id)
  {
    if a.Local? {
      LocalKeepsAccounts(cfg, st, a.k, a.a, t, id);
    } else {
      EnvironmentKeepsAccounts(cfg, st, a, t, id);
    }
  }

  lemma {:induction false} RunKeepsAccounts(cfg: Config, states: seq<State>, acts: seq<Act>, i: nat, t: nat, id: nat)
    requires IsRun(cfg, states, acts) && i < |states| && t < |states[0].logs| && 1 <= cfg.cap
    requires t < |states[i].logs| && states[i].logs[t].losses == 0
    ensures BooksBalance(cfg, states[i], t, id)
  {
    if i == 0 {
      assert states[0].logs[t].grants == [] && states[0].subs == [];
    } else {
      LossesGrow(cfg, states, acts, 0, i - 1, t);
      LossesGrow(cfg, states, acts, i - 1, i, t);
      RunKeepsAccounts(cfg, states, acts, i - 1, t, id);
      Reachable(cfg, states, acts, i - 1);
      assert StepAt(cfg, states, acts, i - 1);
      StepKeepsAccounts(cfg, states[i - 1], acts[i - 1], states[i], t, id);
    }
  }

  // ----- the bounds -----

  /** The subscriptions of a stream beyond the first, on live and dead processes; none at a cap of 1. */
  function Extra(cap: int, st: State, t: nat): nat {
    if cap == 1 || Subscribed(st.subs, t) == 0 then 0 else Subscribed(st.subs, t) - 1
  }

  /** On any number of instances, while the group is kept: at most MaxDeliveryAttempts deliveries of an entry, and one
      more per further subscription, are stamped within the cap; at MaxDeliveryAttempts 1 at most one is. */
  lemma WithinCapAnywhere(cfg: Config, states: seq<State>, acts: seq<Act>, i: nat, t: nat, id: nat)
    requires IsRun(cfg, states, acts) && i < |states| && t < |states[0].logs| && 1 <= cfg.cap
    requires t < |states[i].logs| && states[i].logs[t].losses == 0
    ensures var grants := states[i].logs[t].grants;
            WithinCap(grants, id, cfg.cap, |grants|) <= cfg.cap + Extra(cfg.cap, states[i], t)
  {
    RunKeepsAccounts(cfg, states, acts, i, t, id);
  }

  lemma {:induction false} CallsPerGrant(cfg: Config, log: Log, id: nat, upTo: nat)
    requires HistoryWellFormed(cfg, log) && upTo <= |log.grants|
    ensures TotalCalls(log, id, upTo) <= WithinCap(log.grants, id, cfg.cap, upTo) * (1 + cfg.retries)
  {
    if upTo > 0 {
      CallsPerGrant(cfg, log, id, upTo - 1);
      PerGrant(WithinCap(log.grants, id, cfg.cap, upTo - 1), 1 + cfg.retries);
    }
  }

  lemma PerGrant(n: nat, per: nat)
    ensures n * per + per == (n + 1) * per
  {
  }

  lemma {:induction false} MoreGrantsMoreCalls(m: nat, n: nat, per: nat)
    requires m <= n
    ensures m * per <= n * per
  {
    if m < n {
      MoreGrantsMoreCalls(m, n - 1, per);
      PerGrant(n - 1, per);
    }
  }

  /** On any number of instances, while the group is kept: an entry's handler is called at most
      (MaxDeliveryAttempts + further subscriptions) x (1 + MaxImmediateRetries) times. */
  lemma WorkBoundAnywhere(cfg: Config, states: seq<State>, acts: seq<Act>, i: nat, t: nat, id: nat)
    requires IsRun(cfg, states, acts) && i < |states| && t < |states[0].logs| && 1 <= cfg.cap
    requires t < |states[i].logs| && states[i].logs[t].losses == 0
    ensures |states[i].logs[t].grants| == |states[i].logs[t].calls|
    ensures TotalCalls(states[i].logs[t], id, |states[i].logs[t].grants|)
         <= (cfg.cap + Extra(cfg.cap, states[i], t)) * (1 + cfg.retries)
  {
    var log := states[i].logs[t];
    ReachableLog(cfg, states, acts, i, t);
    WithinCapAnywhere(cfg, states, acts, i, t, id);
    CallsPerGrant(cfg, log, id, |log.grants|);
    var within, most := WithinCap(log.grants, id, cfg.cap, |log.grants|), cfg.cap + Extra(cfg.cap, states[i], t);
    MoreGrantsMoreCalls(within, most, 1 + cfg.retries);
  }
}
