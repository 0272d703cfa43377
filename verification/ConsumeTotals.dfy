/** All dispatches of an entry together, by every subscription its stream ever had. */
module ConsumeTotals {
  import opened Basics
  import opened RedisStream
  import opened Subscriber
  import opened SubscriberInvariant
  import opened ConsumeSystem
  import opened ConsumeTiming
  import opened ConsumeAttempts
  import opened ConsumeStamps
  import opened ConsumeStale
  import opened ConsumePoison

  function TotalDispatches(subs: seq<Sub>, t: nat, id: nat): nat {
    if subs == [] then 0
    else
      var last := subs[|subs| - 1];
      TotalDispatches(subs[..|subs| - 1], t, id)
      + (if last.log == t then TimesDispatched(last.deliveries, id, |last.deliveries|) else 0)
  }

  /** The deliveries received with a stamp within the cap. */
  function TotalReceived(subs: seq<Sub>, t: nat, id: nat, cap: int): nat {
    if subs == [] then 0
    else
      var last := subs[|subs| - 1];
      TotalReceived(subs[..|subs| - 1], t, id, cap)
      + (if last.log == t then ReceivedWithin(last.deliveries, id, cap, |last.deliveries|) else 0)
  }

  // ----- every delivery within the cap has a grant of its own -----

  /** Of the first `upTo` grants, those to `owner` for `id` that are stamped within the cap. */
  function OwnedWithin(grants: seq<Grant>, id: nat, cap: int, owner: nat, upTo: nat): nat
    requires upTo <= |grants|
  {
    if upTo == 0 then 0
    else OwnedWithin(grants, id, cap, owner, upTo - 1)
         + One(grants[upTo - 1].owner == owner && grants[upTo - 1].id == id && 1 <= grants[upTo - 1].stamp <= cap)
  }

  /** The same for the first `n` owners together. */
  function OwnersWithin(grants: seq<Grant>, id: nat, cap: int, n: nat, upTo: nat): nat
    requires upTo <= |grants|
  {
    if n == 0 then 0 else OwnersWithin(grants, id, cap, n - 1, upTo) + OwnedWithin(grants, id, cap, n - 1, upTo)
  }

  lemma {:induction false} OwnedGrows(grants: seq<Grant>, id: nat, cap: int, owner: nat, m: nat, n: nat)
    requires m <= n <= |grants|
    ensures OwnedWithin(grants, id, cap, owner, m) <= OwnedWithin(grants, id, cap, owner, n)
    decreases n
  {
    if m < n {
      OwnedGrows(grants, id, cap, owner, m, n - 1);
    }
  }

  lemma {:induction false} OneOwner(grants: seq<Grant>, id: nat, cap: int, n: nat, upTo: nat)
    requires 0 < upTo <= |grants|
    ensures OwnersWithin(grants, id, cap, n, upTo)
         == OwnersWithin(grants, id, cap, n, upTo - 1)
            + One(grants[upTo - 1].owner < n && grants[upTo - 1].id == id && 1 <= grants[upTo - 1].stamp <= cap)
  {
    if n > 0 {
      OneOwner(grants, id, cap, n - 1, upTo);
    }
  }

  lemma {:induction false} OwnersAtMostAll(grants: seq<Grant>, id: nat, cap: int, n: nat, upTo: nat)
    requires upTo <= |grants|
    ensures OwnersWithin(grants, id, cap, n, upTo) <= WithinCap(grants, id, cap, upTo)
  {
    if upTo == 0 {
      NoOwners(grants, id, cap, n);
    } else {
      OwnersAtMostAll(grants, id, cap, n, upTo - 1);
      OneOwner(grants, id, cap, n, upTo);
    }
  }

  lemma {:induction false} NoOwners(grants: seq<Grant>, id: nat, cap: int, n: nat)
    ensures OwnersWithin(grants, id, cap, n, 0) == 0
  {
    if n > 0 {
      NoOwners(grants, id, cap, n - 1);
    }
  }

  lemma {:induction false} ReceivedAreOwned(cfg: Config, log: Log, k: nat, ds: seq<Delivery>, id: nat, cap: int, upTo: nat)
    requires upTo <= |ds| && forall n :: 0 <= n < |ds| ==> Granted(cfg, log, k, ds[n])
    requires forall n :: 0 <= n < |ds| ==> ds[n].grant < |log.grants|
    requires forall m, n :: 0 <= m < n < |ds| ==> ds[m].grant < ds[n].grant
    ensures ReceivedWithin(ds, id, cap, upTo)
         <= OwnedWithin(log.grants, id, cap, k, if upTo == 0 then 0 else ds[upTo - 1].grant + 1)
  {
    if upTo > 0 {
      var n := upTo - 1;
      ReceivedAreOwned(cfg, log, k, ds, id, cap, n);
      assert Granted(cfg, log, k, ds[n]);
      OwnedGrows(log.grants, id, cap, k, if n == 0 then 0 else ds[n - 1].grant + 1, ds[n].grant);
    }
  }

  lemma {:induction false} ReceivedAreGranted(cfg: Config, st: State, t: nat, id: nat, n: nat)
    requires SysInv(cfg, st) && t < |st.logs| && n <= |st.subs|
    ensures TotalReceived(st.subs[..n], t, id, cfg.cap)
         <= OwnersWithin(st.logs[t].grants, id, cfg.cap, n, |st.logs[t].grants|)
  {
    if n > 0 {
      ReceivedAreGranted(cfg, st, t, id, n - 1);
      assert st.subs[..n][..n - 1] == st.subs[..n - 1];
      var sub, grants := st.subs[n - 1], st.logs[t].grants;
      assert SubOk(cfg, st, n - 1);
      if sub.log == t {
        var last := if sub.deliveries == [] then 0 else sub.deliveries[|sub.deliveries| - 1].grant + 1;
        ReceivedAreOwned(cfg, st.logs[t], n - 1, sub.deliveries, id, cfg.cap, |sub.deliveries|);
        OwnedGrows(grants, id, cfg.cap, n - 1, last, |grants|);
      }
    }
  }

  // ----- the totals -----

  lemma {:induction false} TotalSplit(subs: seq<Sub>, t: nat, id: nat, cap: int, over: nat)
    requires forall k :: 0 <= k < |subs| && subs[k].log == t ==>
               TimesDispatched(subs[k].deliveries, id, |subs[k].deliveries|)
               <= ReceivedWithin(subs[k].deliveries, id, cap, |subs[k].deliveries|) + over
    ensures TotalDispatches(subs, t, id) <= TotalReceived(subs, t, id, cap) + over * Subscribed(subs, t)
  {
    if subs != [] {
      TotalSplit(subs[..|subs| - 1], t, id, cap, over);
      TimesOneMore(over, Subscribed(subs[..|subs| - 1], t));
    }
  }

  lemma TimesOneMore(m: nat, n: nat)
    ensures m * n + m == m * (n + 1)
  {
  }

  /** Every subscription of the stream meets the hypotheses of PoisonBounded. */
  ghost predicate AllSteady(cfg: Config, states: seq<State>, acts: seq<Act>, i: nat, t: nat) {
    && IsRun(cfg, states, acts) && i < |states| && t < |states[i].logs| && states[i].logs[t].losses == 0
    && forall k: nat :: k < |states[i].subs| && states[i].subs[k].log == t ==> SteadyRun(cfg, states, acts, i, k)
  }

  lemma TotalWithin(cfg: Config, states: seq<State>, acts: seq<Act>, i: nat, t: nat, id: nat)
    requires AllSteady(cfg, states, acts, i, t)
    ensures var st := states[i];
            TotalDispatches(st.subs, t, id)
            <= WithinCap(st.logs[t].grants, id, cfg.cap, |st.logs[t].grants|) + cfg.concurrency * Subscribed(st.subs, t)
  {
    var st := states[i];
    Reachable(cfg, states, acts, i);
    forall k | 0 <= k < |st.subs| && st.subs[k].log == t
      ensures TimesDispatched(st.subs[k].deliveries, id, |st.subs[k].deliveries|)
           <= ReceivedWithin(st.subs[k].deliveries, id, cfg.cap, |st.subs[k].deliveries|) + cfg.concurrency
    {
      assert SteadyRun(cfg, states, acts, i, k);
      DispatchesOfOne(cfg, states, acts, i, k, id);
    }
    TotalSplit(st.subs, t, id, cfg.cap, cfg.concurrency);
    ReceivedAreGranted(cfg, st, t, id, |st.subs|);
    assert st.subs[..|st.subs|] == st.subs;
    OwnersAtMostAll(st.logs[t].grants, id, cfg.cap, |st.subs|, |st.logs[t].grants|);
  }

  /** On any number of instances, through crashes and restarts: all dispatches of an entry together are at most
      MaxDeliveryAttempts, plus one per further subscription, plus Concurrency per subscription. */
  lemma TotalAnywhere(cfg: Config, states: seq<State>, acts: seq<Act>, i: nat, t: nat, id: nat)
    requires AllSteady(cfg, states, acts, i, t) && 1 <= cfg.cap && t < |states[0].logs|
    ensures TotalDispatches(states[i].subs, t, id)
         <= cfg.cap + Extra(cfg.cap, states[i], t) + cfg.concurrency * Subscribed(states[i].subs, t)
  {
    TotalWithin(cfg, states, acts, i, t, id);
    WithinCapAnywhere(cfg, states, acts, i, t, id);
  }

  /** With one live instance at a time, across restarts: at most MaxDeliveryAttempts, plus Concurrency per
      subscription. */
  lemma TotalAcrossRestarts(cfg: Config, states: seq<State>, acts: seq<Act>, i: nat, t: nat, id: nat)
    requires AllSteady(cfg, states, acts, i, t) && 1 <= cfg.cap && t < |states[0].logs| && SingleInstance(states, t, i)
    ensures TotalDispatches(states[i].subs, t, id) <= cfg.cap + cfg.concurrency * Subscribed(states[i].subs, t)
  {
    TotalWithin(cfg, states, acts, i, t, id);
    DeliveriesWithinCap(cfg, states, acts, i, t, id);
  }

  // ----- the totals when deliveries are timely -----

  ghost predicate AllCalm(cfg: Config, states: seq<State>, acts: seq<Act>, i: nat, t: nat) {
    AllSteady(cfg, states, acts, i, t) && forall j :: 0 <= j <= i ==> Timely(cfg, states[j], t)
  }

  lemma {:induction false} OneCapped(cfg: Config, ds: seq<Delivery>, id: nat, upTo: nat)
    requires AttemptsGrow(ds) && upTo <= |ds|
    requires forall m, n :: 0 <= m < n < |ds| && ds[m].id == ds[n].id ==> !Capped(cfg, ds[m])
    ensures TimesDispatched(ds, id, upTo)
         <= ReceivedWithin(ds, id, cfg.cap, upTo) + One(exists m :: 0 <= m < upTo && ds[m].id == id && Capped(cfg, ds[m]))
  {
    if upTo > 0 {
      OneCapped(cfg, ds, id, upTo - 1);
    }
  }

  /** When the stream's deliveries are timely: one over-cap dispatch per subscription instead of Concurrency. */
  lemma TotalWhenTimely(cfg: Config, states: seq<State>, acts: seq<Act>, i: nat, t: nat, id: nat)
    requires AllCalm(cfg, states, acts, i, t) && 1 <= cfg.cap && t < |states[0].logs|
    ensures TotalDispatches(states[i].subs, t, id)
         <= cfg.cap + Extra(cfg.cap, states[i], t) + Subscribed(states[i].subs, t)
    ensures SingleInstance(states, t, i) ==>
              TotalDispatches(states[i].subs, t, id) <= cfg.cap + Subscribed(states[i].subs, t)
  {
    var st := states[i];
    Reachable(cfg, states, acts, i);
    forall k | 0 <= k < |st.subs| && st.subs[k].log == t
      ensures TimesDispatched(st.subs[k].deliveries, id, |st.subs[k].deliveries|)
           <= ReceivedWithin(st.subs[k].deliveries, id, cfg.cap, |st.subs[k].deliveries|) + 1
    {
      assert SteadyRun(cfg, states, acts, i, k);
      RunStaysCalm(cfg, states, acts, i, k);
      SubscriptionAttemptsGrow(cfg, states, acts, i, k);
      OneCapped(cfg, st.subs[k].deliveries, id, |st.subs[k].deliveries|);
    }
    TotalSplit(st.subs, t, id, cfg.cap, 1);
    ReceivedAreGranted(cfg, st, t, id, |st.subs|);
    assert st.subs[..|st.subs|] == st.subs;
    OwnersAtMostAll(st.logs[t].grants, id, cfg.cap, |st.subs|, |st.logs[t].grants|);
    WithinCapAnywhere(cfg, states, acts, i, t, id);
    if SingleInstance(states, t, i) {
      DeliveriesWithinCap(cfg, states, acts, i, t, id);
    }
  }
}
