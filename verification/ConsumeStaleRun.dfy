/** The bound on deliveries within the cap is reached: for every cap from 2 on and every number of instances a run in
    which all of them scan an entry one delivery below the cap before any of them claims it. */
module ConsumeStaleRun {
  import opened Basics
  import opened RedisStream
  import opened Subscriber
  import opened ConsumeSystem
  import opened ConsumeAttempts
  import opened ConsumeStale
  import opened ConsumeOverlap

  /** `n` instances; the first has nacked the entry `c` times before the others join and all of them scan. */
  datatype Setting = Setting(cap: nat, concurrency: nat, c: nat, n: nat)

  type Scene = s: Setting | 1 <= s.c <= s.cap && 1 <= s.concurrency && 1 <= s.n witness Setting(1, 1, 1, 1)

  function Cfg(s: Scene): Config {
    Tight(s.cap, s.concurrency)
  }

  const UP := Inst(false, false, false, 1)

  function Insts(n: nat): (s: seq<Inst>)
    ensures |s| == n && forall i :: 0 <= i < n ==> s[i] == UP
  {
    seq(n, i => UP)
  }

  /** Subscription `i` before it scans: the first one has its nacked deliveries, the others are new. */
  function Fresh(s: Scene, i: nat): Sub {
    if i == 0 then Late(s.cap, s.c).subs[0] else NewSub(i, 0, true)
  }

  /** Where a subscription is: it has scanned, and it has claimed. */
  function Member(s: Scene, i: nat, scanned: bool, claimed: bool): Sub {
    var base := Fresh(s, i);
    if claimed then
      base.(sem := 1, claimer := CEmit(|base.deliveries|, []), stages := base.stages + [Decoding],
            deliveries := base.deliveries + [Delivery(s.c + i, 1, s.c + 1, s.c + i, false, Idle, false, false, false)])
    else if scanned then base.(claimer := CSweep([Snapshot(1, s.c)]))
    else base
  }

  function Members(s: Scene, scanned: nat, claimed: nat): (subs: seq<Sub>)
    ensures |subs| == s.n && forall i: nat :: i < s.n ==> subs[i] == Member(s, i, i < scanned, i < claimed)
  {
    seq(s.n, (i: nat) => Member(s, i, i < scanned, i < claimed))
  }

  /** The grants after `m` claims with the line that counts `c` deliveries. */
  function StaleGrants(c: nat, m: nat): (g: seq<Grant>)
    requires 1 <= c
    ensures |g| == c + m
  {
    if m == 0 then PiledGrants(c) else StaleGrants(c, m - 1) + [Grant(1, c + m, c - 1 + m, false, m - 1, c + 1)]
  }

  function StaleCalls(s: Scene, m: nat): (calls: seq<nat>)
    ensures |calls| == s.c + m
  {
    if m == 0 then CallsMade(s.cap, s.c) else StaleCalls(s, m - 1) + [0]
  }

  function StaleStream(s: Scene, m: nat): Log {
    Log({1}, {}, 2, Some(Group(1, map[1 := Pending(s.c + m, s.c - 1 + m, s.c - 1 + m)])), [], {},
        StaleGrants(s.c, m), StaleCalls(s, m), 1, 0)
  }

  /** `scanned` instances have scanned and then `m` have claimed, one tick apart. */
  function Stale(s: Scene, scanned: nat, m: nat): State {
    State(s.c + m, [StaleStream(s, m)], Insts(s.n), Members(s, scanned, m))
  }

  /** The first instance has nacked the entry `c` times, and a tick has passed. */
  lemma NackedReached(s: Scene) returns (run: Trace)
    requires s.n == 1
    ensures EndsIn(Cfg(s), run, Stale(s, 0, 0))
  {
    run := PiledReached(s.cap, s.concurrency, s.c - 1);
    run := LateReached(Cfg(s), run, s.cap, s.c);
    assert Late(s.cap, s.c).subs == Members(s, 0, 0);
    assert Late(s.cap, s.c).insts == Insts(1);
  }

  lemma Joins(run: Trace, s: Scene, more: Scene) returns (longer: Trace)
    requires more == s.(n := s.n + 1) && EndsIn(Cfg(s), run, Stale(s, 0, 0))
    ensures EndsIn(Cfg(more), longer, Stale(more, 0, 0))
  {
    var st := Stale(s, 0, 0);
    var started := st.(insts := st.insts + [NEW_PROCESS]);
    longer := OneMoreStep(Cfg(s), run, st, StartProcess, started);
    assert started.insts[s.n := UP] == Insts(more.n);
    assert st.subs + [NewSub(s.n, 0, true)] == Members(more, 0, 0);
    longer := OneMoreStep(Cfg(s), longer, started, Subscribe(s.n, 0, true), Stale(more, 0, 0));
  }

  lemma {:induction false} JoinedReached(s: Scene) returns (run: Trace)
    ensures EndsIn(Cfg(s), run, Stale(s, 0, 0))
    decreases s.n
  {
    if s.n == 1 {
      run := NackedReached(s);
    } else {
      run := JoinedReached(s.(n := s.n - 1));
      run := Joins(run, s.(n := s.n - 1), s);
    }
  }

  lemma ScansNext(run: Trace, s: Scene, k: nat) returns (longer: Trace)
    requires k < s.n && EndsIn(Cfg(s), run, Stale(s, k, 0))
    ensures EndsIn(Cfg(s), longer, Stale(s, k + 1, 0))
  {
    var st, reply := Stale(s, k, 0), [Snapshot(1, s.c)];
    var ticked := st.(subs := st.subs[k := st.subs[k].(claimer := CScan)]);
    assert Insts(s.n)[k := UP] == Insts(s.n) && st.logs[0 := st.logs[0]] == st.logs;
    longer := OneMoreStep(Cfg(s), run, st, Local(k, OfClaimer(ClaimTick)), ticked);
    assert reply[0].id == 1;
    assert IsPendingReply(StaleStream(s, 0), s.c, 1, CLAIM_BATCH, reply);
    assert ticked.subs[k := Member(s, k, true, false)] == Members(s, k + 1, 0);
    assert ticked.subs[k].(claimer := CSweep(reply)) == Member(s, k, true, false);
    assert ActEnabled(Cfg(s), ticked, Local(k, OfClaimer(ClaimScan(reply))));
    longer := OneMoreStep(Cfg(s), longer, ticked, Local(k, OfClaimer(ClaimScan(reply))), Stale(s, k + 1, 0));
  }

  lemma {:induction false} ScannedReached(s: Scene, k: nat) returns (run: Trace)
    requires k <= s.n
    ensures EndsIn(Cfg(s), run, Stale(s, k, 0))
  {
    if k == 0 {
      run := JoinedReached(s);
    } else {
      run := ScannedReached(s, k - 1);
      run := ScansNext(run, s, k - 1);
    }
  }

  /** The next instance holds a slot and the line it scanned when the counter was `c`. */
  function Holding(s: Scene, k: nat): State
    requires k < s.n
  {
    var st := Stale(s, s.n, k);
    st.(subs := st.subs[k := st.subs[k].(sem := 1, claimer := CClaim([Snapshot(1, s.c)]))])
  }

  lemma ClaimsStale(s: Scene, k: nat)
    requires k < s.n
    ensures Follows(Cfg(s), Holding(s, k), Local(k, OfClaimer(ClaimEntry)), Stale(s, s.n, k + 1).(now := s.c + k))
  {
    assert Insts(s.n)[k := UP] == Insts(s.n) && [Snapshot(1, s.c)][1..] == [];
    assert Holding(s, k).subs[k := Member(s, k, true, true)] == Members(s, s.n, k + 1);
    assert StaleStream(s, k).group.value.pel[1 := Pending(s.c + k + 1, s.c + k, s.c + k)]
        == StaleStream(s, k + 1).group.value.pel;
  }

  lemma ClaimsNext(run: Trace, s: Scene, k: nat) returns (longer: Trace)
    requires k < s.n && EndsIn(Cfg(s), run, Stale(s, s.n, k))
    ensures EndsIn(Cfg(s), longer, Stale(s, s.n, k + 1))
  {
    var st := Stale(s, s.n, k);
    var claimed := Stale(s, s.n, k + 1).(now := st.now);
    assert Insts(s.n)[k := UP] == Insts(s.n) && st.logs[0 := st.logs[0]] == st.logs;
    longer := OneMoreStep(Cfg(s), run, st, Local(k, OfClaimer(ClaimAcquire)), Holding(s, k));
    ClaimsStale(s, k);
    longer := OneMoreStep(Cfg(s), longer, Holding(s, k), Local(k, OfClaimer(ClaimEntry)), claimed);
    longer := OneMoreStep(Cfg(s), longer, claimed, ClockTick, Stale(s, s.n, k + 1));
  }

  lemma {:induction false} ClaimedReached(s: Scene, k: nat) returns (run: Trace)
    requires k <= s.n
    ensures EndsIn(Cfg(s), run, Stale(s, s.n, k))
  {
    if k == 0 {
      run := ScannedReached(s, s.n);
    } else {
      run := ClaimedReached(s, k - 1);
      run := ClaimsNext(run, s, k - 1);
    }
  }

  lemma {:induction false} PiledWithinCap(cap: nat, n: nat)
    requires n <= cap
    ensures WithinCap(PiledGrants(n), 1, cap, n) == n
  {
    if n > 0 {
      PiledWithinCap(cap, n - 1);
      WithinCapPrefix(PiledGrants(n - 1), PiledGrants(n), 1, cap, n - 1);
    }
  }

  lemma {:induction false} AllWithinCap(cap: nat, c: nat, m: nat)
    requires 1 <= c < cap
    ensures WithinCap(StaleGrants(c, m), 1, cap, c + m) == c + m
  {
    if m == 0 {
      PiledWithinCap(cap, c);
    } else {
      AllWithinCap(cap, c, m - 1);
      WithinCapPrefix(StaleGrants(c, m - 1), StaleGrants(c, m), 1, cap, c + m - 1);
    }
  }

  lemma {:induction false} AllSubscribed(subs: seq<Sub>)
    requires forall i :: 0 <= i < |subs| ==> subs[i].log == 0
    ensures Subscribed(subs, 0) == |subs|
  {
    if subs != [] {
      AllSubscribed(subs[..|subs| - 1]);
    }
  }

  /** All instances scan when one more delivery reaches the cap. */
  function Edge(cap: nat, n: nat): Scene
    requires 2 <= cap && 1 <= n
  {
    Setting(cap, 1, cap - 1, n)
  }

  /** With `n` instances, any MaxDeliveryAttempts from 2 on and no failure, cap + n - 1 deliveries of one entry are
      stamped within the cap, which is the bound; the last one is stamped with the cap when the server's counter is
      cap + n - 1. */
  lemma BoundIsReachedAnywhere(cap: nat, n: nat) returns (run: Trace)
    requires 2 <= cap && 1 <= n
    ensures var st := Stale(Edge(cap, n), n, n);
            && EndsIn(Tight(cap, 1), run, st) && st.logs[0].losses == 0
            && WithinCap(st.logs[0].grants, 1, cap, |st.logs[0].grants|) == cap + Extra(cap, st, 0) == cap + n - 1
            && st.logs[0].grants[cap + n - 2].stamp == cap && st.logs[0].grants[cap + n - 2].count == cap + n - 1
  {
    run := ClaimedReached(Edge(cap, n), n);
    AllWithinCap(cap, cap - 1, n);
    AllSubscribed(Stale(Edge(cap, n), n, n).subs);
  }

  /** Two instances suffice for a stamp behind the counter. */
  lemma StampCanBeStale(cap: nat) returns (run: Trace)
    requires 2 <= cap
    ensures var st := Stale(Edge(cap, 2), 2, 2);
            && EndsIn(Tight(cap, 1), run, st) && st.logs[0].losses == 0
            && var grant := st.logs[0].grants[cap]; !grant.isRead && grant.owner == 1 && 1 <= grant.stamp < grant.count
  {
    run := BoundIsReachedAnywhere(cap, 2);
  }
}
