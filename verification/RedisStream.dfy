/** One Redis stream with its consumer group, as internal/redis/stream.go drives it.

    An entry id is a natural number: ids grow, and "0" comes before every entry. `grants` is the
    history of deliveries the server has handed out (an XREADGROUP or XCLAIM that took effect);
    `calls`, `handled`, `creations` and `losses` are history too. No command reads them. */
module RedisStream {
  import opened Basics

  /** One line of the pending entries list: delivery counter, last delivery time, and the number
      of the grant that made it. */
  datatype Pending = Pending(count: nat, at: nat, grant: nat)

  datatype Group = Group(last: nat, pel: map<nat, Pending>)

  /** A delivery the server made. `stamp` is the attempt number the client puts on the message,
      0 when the reply never reached the client. */
  datatype Grant = Grant(id: nat, count: nat, at: nat, isRead: bool, owner: nat, stamp: nat)

  datatype Log = Log(
    entries: set<nat>,
    undecodable: set<nat>,
    nextId: nat,
    group: Option<Group>,
    dlq: seq<nat>,
    handled: set<nat>,
    grants: seq<Grant>,
    calls: seq<nat>,
    creations: nat,
    losses: nat)

  /** The settings the protocol depends on. `cap` is MaxDeliveryAttempts, `retries` is
      MaxImmediateRetries. */
  datatype Config = Config(concurrency: nat, minIdle: nat, cap: int, retries: nat)

  const EMPTY_LOG := Log({}, {}, 1, None, [], {}, [], [], 0, 0)

  /** An entry that no longer needs a delivery: handled, discarded or skipped by dispatch, or in the DLQ. */
  predicate Settled(log: Log, id: nat) {
    id in log.handled || id in log.dlq
  }

  // ----- commands -----

  /** The entry XREADGROUP returns for ">": the first one after the last delivered id. */
  ghost predicate IsNext(log: Log, id: nat) {
    && log.group.Some?
    && id in log.entries
    && log.group.value.last < id
    && forall other :: other in log.entries && log.group.value.last < other ==> id <= other
  }

  ghost predicate NothingNew(log: Log) {
    log.group.Some? && forall id :: id in log.entries ==> id <= log.group.value.last
  }

  function Deliver(log: Log, group: Group, grant: Grant): Log {
    log.(group := Some(group.(pel := group.pel[grant.id := Pending(grant.count, grant.at, |log.grants|)])),
         grants := log.grants + [grant],
         calls := log.calls + [0])
  }

  function ReadNew(log: Log, now: nat, id: nat, owner: nat, stamp: nat): Log
    requires log.group.Some?
  {
    Deliver(log, log.group.value.(last := id), Grant(id, 1, now, true, owner, stamp))
  }

  /** XCLAIM re-checks MINIDLE on the server. */
  predicate Claimable(log: Log, now: nat, minIdle: nat, id: nat) {
    && log.group.Some?
    && id in log.group.value.pel
    && log.group.value.pel[id].at + minIdle <= now
  }

  function Claim(log: Log, now: nat, id: nat, owner: nat, stamp: nat): Log
    requires log.group.Some? && id in log.group.value.pel
  {
    Deliver(log, log.group.value,
            Grant(id, log.group.value.pel[id].count + 1, now, false, owner, stamp))
  }

  /** XACK: a no-op on an id that is not pending, and when the group is missing. */
  function Ack(log: Log, id: nat): Log {
    match log.group
    case None => log
    case Some(g) => log.(group := Some(g.(pel := g.pel - {id})))
  }

  /** XGROUP CREATE ... 0 MKSTREAM, with BUSYGROUP treated as success. */
  function EnsureGroup(log: Log): Log {
    if log.group.Some? then log
    else log.(group := Some(Group(0, map[])), creations := log.creations + 1)
  }

  /** One line of an XPENDING reply. */
  datatype Snapshot = Snapshot(id: nat, count: nat)

  /** XPENDING with IDLE and COUNT: the first `limit` idle entries, in id order. */
  ghost predicate IsPendingReply(log: Log, now: nat, minIdle: nat, limit: nat, reply: seq<Snapshot>) {
    && log.group.Some?
    && |reply| <= limit
    && (forall i :: 0 <= i < |reply| ==>
         Claimable(log, now, minIdle, reply[i].id) && reply[i].count == log.group.value.pel[reply[i].id].count)
    && (forall i, j :: 0 <= i < j < |reply| ==> reply[i].id < reply[j].id)
    && (forall id :: Claimable(log, now, minIdle, id) ==>
         || (exists i :: 0 <= i < |reply| && reply[i].id == id)
         || (|reply| == limit && forall i :: 0 <= i < |reply| ==> reply[i].id < id))
  }

  // ----- what happens around the commands -----

  function Publish(log: Log, decodable: bool): Log {
    log.(entries := log.entries + {log.nextId},
         undecodable := if decodable then log.undecodable else log.undecodable + {log.nextId},
         nextId := log.nextId + 1)
  }

  function DestroyGroup(log: Log): Log {
    if log.group.None? then log else log.(group := None, losses := log.losses + 1)
  }

  function DeleteStream(log: Log): Log {
    DestroyGroup(log).(entries := {})
  }

  function Handle(log: Log, id: nat): Log {
    log.(handled := log.handled + {id})
  }

  function WriteLetter(log: Log, id: nat): Log {
    log.(dlq := log.dlq + [id])
  }

  function Invoke(log: Log, grant: nat): Log
    requires grant < |log.calls|
  {
    log.(calls := log.calls[grant := log.calls[grant] + 1])
  }

  // ----- invariants of one stream -----

  /** How often a delivery stamped `stamp` may call its handler. */
  function Budget(cfg: Config, stamp: nat): nat {
    if 1 <= stamp <= cfg.cap then 1 + cfg.retries else 0
  }

  /** Every entry on the stream is undelivered, pending or settled, or the group is missing. */
  ghost predicate NothingLost(log: Log) {
    log.group.Some? ==>
      forall id :: id in log.entries ==>
        log.group.value.last < id || id in log.group.value.pel || Settled(log, id)
  }

  ghost predicate PelWellFormed(log: Log) {
    log.group.Some? ==>
      && log.group.value.last < log.nextId
      && forall id :: id in log.group.value.pel ==>
           var p := log.group.value.pel[id];
           && 1 <= id <= log.group.value.last
           && id in log.entries
           && p.grant < |log.grants|
           && log.grants[p.grant].id == id
           && log.grants[p.grant].count == p.count
           && log.grants[p.grant].at == p.at
  }

  ghost predicate HistoryWellFormed(cfg: Config, log: Log) {
    && 1 <= log.nextId
    && (forall id :: id in log.entries ==> 1 <= id < log.nextId)
    && |log.calls| == |log.grants|
    && (forall g :: 0 <= g < |log.grants| ==>
         && 1 <= log.grants[g].count
         && 1 <= log.grants[g].id < log.nextId
         && log.calls[g] <= Budget(cfg, log.grants[g].stamp))
  }

  /** The group was created once at the start and once more per loss. */
  predicate CreatedOncePerLoss(log: Log) {
    log.creations == log.losses + One(log.group.Some?)
  }

  ghost predicate Covers(grants: seq<Grant>, group: Option<Group>) {
    match group
    case None => grants == []
    case Some(g) => forall i :: 0 <= i < |grants| ==> grants[i].id <= g.last
  }

  /** An entry's counter grows with every grant. */
  ghost predicate CountersGrow(grants: seq<Grant>) {
    forall i, j :: 0 <= i < j < |grants| && grants[i].id == grants[j].id ==> grants[i].count < grants[j].count
  }

  /** Fresh reads follow the stream. */
  ghost predicate ReadsInOrder(grants: seq<Grant>) {
    forall i, j :: 0 <= i < j < |grants| && grants[i].isRead && grants[j].isRead ==> grants[i].id < grants[j].id
  }

  /** The pending list names the latest grant of each of its entries. */
  ghost predicate NamesLatest(grants: seq<Grant>, pel: map<nat, Pending>) {
    forall i :: 0 <= i < |grants| && grants[i].id in pel ==> i <= pel[grants[i].id].grant
  }

  ghost predicate StampsWithinCounters(grants: seq<Grant>) {
    forall i :: 0 <= i < |grants| ==> grants[i].stamp <= grants[i].count
  }

  /** What holds as long as the group has never been lost. */
  ghost predicate Ordered(log: Log) {
    log.losses == 0 ==>
      && Covers(log.grants, log.group)
      && CountersGrow(log.grants)
      && ReadsInOrder(log.grants)
      && (log.group.Some? ==> NamesLatest(log.grants, log.group.value.pel))
      && StampsWithinCounters(log.grants)
  }

  ghost predicate LogInv(cfg: Config, log: Log) {
    && HistoryWellFormed(cfg, log)
    && PelWellFormed(log)
    && NothingLost(log)
    && CreatedOncePerLoss(log)
    && Ordered(log)
  }

  /** What every step by `actor` guarantees to the other subscriptions of the stream
      (-1 stands for the environment). */
  ghost predicate Extends(log: Log, next: Log, actor: int) {
    && log.handled <= next.handled
    && log.dlq <= next.dlq
    && log.grants <= next.grants
    && |log.calls| == |log.grants| && |next.calls| == |next.grants|
    && (forall g :: 0 <= g < |log.grants| && log.grants[g].owner != actor ==> next.calls[g] == log.calls[g])
    && log.losses <= next.losses
    && log.nextId <= next.nextId
    && (forall id :: 0 <= id < log.nextId ==> (id in log.undecodable <==> id in next.undecodable))
    && (next.losses == log.losses && log.group.Some? ==>
         && next.group.Some?
         && log.group.value.last <= next.group.value.last
         && forall id :: id in next.group.value.pel && id <= log.group.value.last ==>
              && id in log.group.value.pel
              && log.group.value.pel[id].count <= next.group.value.pel[id].count)
  }

  // ----- every command keeps the invariant -----

  lemma OrderedAfterGrant(log: Log, group: Group, grant: Grant)
    requires log.losses == 0 && log.group.Some? && Ordered(log)
    requires log.group.value.last <= group.last && grant.id <= group.last && group.pel == log.group.value.pel
    requires forall i :: 0 <= i < |log.grants| && log.grants[i].id == grant.id ==> log.grants[i].count < grant.count
    requires grant.isRead ==> log.group.value.last < grant.id
    requires grant.stamp <= grant.count
    ensures Ordered(Deliver(log, group, grant))
  {
    var next := Deliver(log, group, grant);
    assert CountersGrow(next.grants);
    assert ReadsInOrder(next.grants);
    assert NamesLatest(next.grants, next.group.value.pel);
  }

  lemma HistoryAfterGrant(cfg: Config, log: Log, group: Group, grant: Grant)
    requires HistoryWellFormed(cfg, log) && 1 <= grant.count && 1 <= grant.id < log.nextId
    ensures HistoryWellFormed(cfg, Deliver(log, group, grant))
  {
  }

  lemma PelAfterGrant(log: Log, group: Group, grant: Grant)
    requires PelWellFormed(log) && log.group.Some?
    requires log.group.value.last <= group.last < log.nextId && group.pel == log.group.value.pel
    requires 1 <= grant.id <= group.last && grant.id in log.entries
    ensures PelWellFormed(Deliver(log, group, grant))
  {
  }

  lemma ExtendsAfterGrant(log: Log, group: Group, grant: Grant)
    requires log.group.Some? && log.group.value.last <= group.last && group.pel == log.group.value.pel
    requires |log.calls| == |log.grants|
    requires if grant.id in group.pel then group.pel[grant.id].count <= grant.count
             else log.group.value.last < grant.id
    ensures Extends(log, Deliver(log, group, grant), grant.owner)
  {
  }

  lemma NothingLostAfterGrant(log: Log, group: Group, grant: Grant)
    requires NothingLost(log) && log.group.Some? && group.pel == log.group.value.pel
    requires if grant.isRead then IsNext(log, grant.id) && group.last == grant.id else group.last == log.group.value.last
    ensures NothingLost(Deliver(log, group, grant))
  {
  }

  lemma CountersBelowLatest(log: Log, id: nat)
    requires log.losses == 0 && Ordered(log) && PelWellFormed(log) && log.group.Some? && id in log.group.value.pel
    ensures forall i :: 0 <= i < |log.grants| && log.grants[i].id == id ==>
              log.grants[i].count <= log.group.value.pel[id].count
  {
  }

  lemma GrantKeeps(cfg: Config, log: Log, group: Group, grant: Grant)
    requires LogInv(cfg, log) && log.group.Some? && group.pel == log.group.value.pel
    requires 1 <= grant.count && 1 <= grant.id < log.nextId && grant.id in log.entries
    requires if grant.isRead then IsNext(log, grant.id) && group.last == grant.id
             else grant.id in group.pel && group.last == log.group.value.last
                  && grant.count == group.pel[grant.id].count + 1
    requires log.losses == 0 ==> grant.stamp <= grant.count
    ensures LogInv(cfg, Deliver(log, group, grant))
    ensures Extends(log, Deliver(log, group, grant), grant.owner)
  {
    HistoryAfterGrant(cfg, log, group, grant);
    PelAfterGrant(log, group, grant);
    NothingLostAfterGrant(log, group, grant);
    ExtendsAfterGrant(log, group, grant);
    if log.losses == 0 {
      if !grant.isRead {
        CountersBelowLatest(log, grant.id);
      }
      OrderedAfterGrant(log, group, grant);
    }
  }

  lemma ReadKeeps(cfg: Config, log: Log, now: nat, id: nat, owner: nat, stamp: nat)
    requires LogInv(cfg, log) && IsNext(log, id) && stamp <= 1
    ensures LogInv(cfg, ReadNew(log, now, id, owner, stamp))
    ensures Extends(log, ReadNew(log, now, id, owner, stamp), owner)
  {
    GrantKeeps(cfg, log, log.group.value.(last := id), Grant(id, 1, now, true, owner, stamp));
  }

  lemma ClaimKeeps(cfg: Config, log: Log, now: nat, id: nat, owner: nat, stamp: nat)
    requires LogInv(cfg, log) && log.group.Some? && id in log.group.value.pel
    requires log.losses == 0 ==> stamp <= log.group.value.pel[id].count + 1
    ensures LogInv(cfg, Claim(log, now, id, owner, stamp))
    ensures Extends(log, Claim(log, now, id, owner, stamp), owner)
  {
    var group := log.group.value;
    var grant := Grant(id, group.pel[id].count + 1, now, false, owner, stamp);
    GrantKeeps(cfg, log, group, grant);
    assert Claim(log, now, id, owner, stamp) == Deliver(log, group, grant);
  }

  /** Acknowledging a settled entry strands nothing, whichever group it was delivered under. */
  lemma AckKeeps(cfg: Config, log: Log, id: nat, actor: int)
    requires LogInv(cfg, log) && Settled(log, id)
    ensures LogInv(cfg, Ack(log, id))
    ensures Extends(log, Ack(log, id), actor)
  {
  }

  lemma EnsureKeeps(cfg: Config, log: Log, actor: int)
    requires LogInv(cfg, log)
    ensures LogInv(cfg, EnsureGroup(log))
    ensures Extends(log, EnsureGroup(log), actor)
  {
  }

  lemma EnvironmentKeeps(cfg: Config, log: Log, decodable: bool)
    requires LogInv(cfg, log)
    ensures LogInv(cfg, Publish(log, decodable)) && Extends(log, Publish(log, decodable), -1)
    ensures LogInv(cfg, DestroyGroup(log)) && Extends(log, DestroyGroup(log), -1)
    ensures LogInv(cfg, DeleteStream(log)) && Extends(log, DeleteStream(log), -1)
  {
  }

  lemma SettleKeeps(cfg: Config, log: Log, id: nat, actor: int)
    requires LogInv(cfg, log)
    ensures LogInv(cfg, Handle(log, id)) && Extends(log, Handle(log, id), actor)
    ensures LogInv(cfg, WriteLetter(log, id)) && Extends(log, WriteLetter(log, id), actor)
  {
  }

  lemma InvokeKeeps(cfg: Config, log: Log, g: nat)
    requires LogInv(cfg, log) && g < |log.grants|
    requires log.calls[g] < Budget(cfg, log.grants[g].stamp)
    ensures LogInv(cfg, Invoke(log, g)) && Extends(log, Invoke(log, g), log.grants[g].owner)
  {
    var next := Invoke(log, g);
    assert forall i :: 0 <= i < |log.grants| && i != g ==> next.calls[i] == log.calls[i];
    assert HistoryWellFormed(cfg, next);
  }
}
