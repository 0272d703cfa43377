/** What every subscription keeps, whatever the other subscriptions and the environment do. */
module SubscriberInvariant {
  import opened Basics
  import opened RedisStream
  import opened Subscriber

  // ----- slots and the WaitGroup -----

  /** The read loop has taken a slot that it has neither released nor passed on to a waiter. */
  predicate ReaderHolds(sub: Sub) {
    sub.reader.RRead? || sub.reader.RRelease? || sub.reader.REmit?
  }

  predicate ClaimerHolds(sub: Sub) {
    sub.claimer.CClaim? || sub.claimer.CRelease? || sub.claimer.CEmit?
  }

  /** Tokens the semaphore must hold: one per holding loop and one per waiter that has not released. */
  function SlotsInUse(sub: Sub): nat {
    One(ReaderHolds(sub)) + One(ClaimerHolds(sub)) + Count(sub.stages, SLOT_STAGES)
  }

  predicate SlotsExact(cfg: Config, sub: Sub) {
    sub.sem == SlotsInUse(sub) <= cfg.concurrency
  }

  /** What this subscription adds to its Subscriber's WaitGroup: its own goroutine and its waiters. */
  function Outstanding(sub: Sub): nat {
    One(!sub.finished) + Count(sub.stages, WAITER_STAGES)
  }

  // ----- control flow -----

  /** A delivery is in a loop stage exactly while one of the two loops is emitting it. */
  ghost predicate LoopsOwn(sub: Sub) {
    && |sub.stages| == |sub.deliveries|
    && (sub.reader.REmit? ==> sub.reader.n < |sub.stages|)
    && (sub.claimer.CEmit? ==> sub.claimer.n < |sub.stages|)
    && (sub.reader.REmit? && sub.claimer.CEmit? ==> sub.reader.n != sub.claimer.n)
    && (sub.claimer.CClaim? ==> sub.claimer.todo != [])
    && forall n :: 0 <= n < |sub.stages| ==>
         (sub.stages[n] in LOOP_STAGES <==>
            (sub.reader.REmit? && sub.reader.n == n) || (sub.claimer.CEmit? && sub.claimer.n == n))
  }

  /** `out` is closed only after both loops have returned, and the goroutine ends after that. */
  predicate ClosedLast(sub: Sub) {
    && (sub.outClosed ==> sub.reader.RDone? && sub.claimer.CDone?)
    && (sub.finished ==> sub.outClosed)
  }

  // ----- deliveries -----

  /** The delivery is the one its grant records, and its handler calls stay within its budget. */
  ghost predicate Granted(cfg: Config, log: Log, k: nat, d: Delivery) {
    && d.grant < |log.grants| == |log.calls|
    && log.grants[d.grant] == Grant(d.id, log.grants[d.grant].count, d.since, d.isRead, k, d.attempt)
    && 1 <= d.attempt
    && (d.run.Idle? ==> log.calls[d.grant] == 0)
    && (d.run.Running? ==> log.calls[d.grant] == d.run.calls <= Budget(cfg, d.attempt))
  }

  /** An acknowledgement is only ever under way for a settled entry. */
  ghost predicate Justified(log: Log, d: Delivery, stage: Stage) {
    && (d.run.Running? && d.run.letter.Accepted? ==> d.id in log.dlq)
    && (d.run == Returned(true) ==> Settled(log, d.id))
    && (stage.HookAcking? ==> d.id in log.dlq)
    && (stage.Acking? ==> d.run == Returned(true))
  }

  /** The waiter leaves, and the message context is cancelled, only once the handler has returned or
      Close has begun; an acked message leaves only after its XACK was attempted. */
  predicate Drained(closing: bool, d: Delivery, stage: Stage) {
    && (!Sent(stage) ==> d.run.Idle?)
    && (d.run.Running? ==> d.begun)
    && (d.run.Idle? ==> !d.begun)
    && (Sent(stage) && d.ctxDone ==> d.run.Returned? || closing)
    && (stage in {Unwinding, Leaving, Gone} ==> d.run.Returned? || closing)
    && (stage in {Unwinding, Leaving, Gone} && !closing && d.run == Returned(true) ==> d.tried)
    && (d.ctxDone ==> stage in {Dropped, Leaving, Gone})
    && (stage in {Decoding, Sending, Waiting} ==> !d.tried)
  }

  ghost predicate DeliveriesKept(cfg: Config, closing: bool, log: Log, k: nat, sub: Sub) {
    && |sub.stages| == |sub.deliveries|
    && forall n :: 0 <= n < |sub.deliveries| ==>
         && Granted(cfg, log, k, sub.deliveries[n])
         && Justified(log, sub.deliveries[n], sub.stages[n])
         && Drained(closing, sub.deliveries[n], sub.stages[n])
  }

  /** Grants of different deliveries differ, and later deliveries have later grants. */
  ghost predicate GrantsIncrease(log: Log, sub: Sub) {
    && (forall m, n :: 0 <= m < n < |sub.deliveries| ==> sub.deliveries[m].grant < sub.deliveries[n].grant)
    && (forall n :: 0 <= n < |sub.deliveries| ==> sub.deliveries[n].grant < |log.grants|)
  }

  function Todo(sub: Sub): seq<Snapshot> {
    match sub.claimer
    case CSweep(todo) => todo
    case CClaim(todo) => todo
    case CRelease(todo, _) => todo
    case CEmit(_, todo) => todo
    case _ => []
  }

  /** A pending snapshot may be stale, but never ahead of the server. */
  ghost predicate SnapshotBehind(log: Log, todo: seq<Snapshot>) {
    log.losses == 0 && todo != [] ==>
      && log.group.Some?
      && forall i :: 0 <= i < |todo| ==>
           && todo[i].id <= log.group.value.last
           && (todo[i].id in log.group.value.pel ==> todo[i].count <= log.group.value.pel[todo[i].id].count)
  }

  ghost predicate SubInv(cfg: Config, closing: bool, log: Log, k: nat, sub: Sub) {
    && SlotsExact(cfg, sub)
    && LoopsOwn(sub)
    && ClosedLast(sub)
    && DeliveriesKept(cfg, closing, log, k, sub)
    && GrantsIncrease(log, sub)
    && SnapshotBehind(log, Todo(sub))
  }

  // ----- the subscription's own steps: counters and control flow -----

  ghost predicate Controlled(cfg: Config, sub: Sub) {
    SlotsExact(cfg, sub) && LoopsOwn(sub) && ClosedLast(sub)
  }

  /** The stage of one delivery changes. */
  lemma StagesChange(stages: seq<Stage>, n: nat, stage: Stage)
    requires n < |stages|
    ensures Count(stages[n := stage], SLOT_STAGES) + One(stages[n] in SLOT_STAGES)
         == Count(stages, SLOT_STAGES) + One(stage in SLOT_STAGES)
    ensures Count(stages[n := stage], WAITER_STAGES) + One(stages[n] in WAITER_STAGES)
         == Count(stages, WAITER_STAGES) + One(stage in WAITER_STAGES)
  {
    CountUpdate(stages, n, stage, SLOT_STAGES);
    CountUpdate(stages, n, stage, WAITER_STAGES);
  }

  lemma StagesGrow(stages: seq<Stage>, stage: Stage)
    ensures Count(stages + [stage], SLOT_STAGES) == Count(stages, SLOT_STAGES) + One(stage in SLOT_STAGES)
    ensures Count(stages + [stage], WAITER_STAGES) == Count(stages, WAITER_STAGES) + One(stage in WAITER_STAGES)
  {
    CountAppend(stages, stage, SLOT_STAGES);
    CountAppend(stages, stage, WAITER_STAGES);
  }

  lemma ReadKeepsControl(cfg: Config, env: Env, k: nat, v: View, a: ReadAct)
    requires Controlled(cfg, v.sub) && ReadEnabled(cfg, env, v, a)
    ensures Controlled(cfg, ReadStep(cfg, env, k, v, a).sub)
    ensures Outstanding(ReadStep(cfg, env, k, v, a).sub) == Outstanding(v.sub)
    ensures ReadStep(cfg, env, k, v, a).wg == v.wg
  {
    if a.ReadEntry? {
      StagesGrow(v.sub.stages, Decoding);
    }
  }

  lemma ClaimKeepsControl(cfg: Config, env: Env, k: nat, v: View, a: ClaimAct)
    requires Controlled(cfg, v.sub) && ClaimEnabled(cfg, env, v, a)
    ensures Controlled(cfg, ClaimStep(cfg, env, k, v, a).sub)
    ensures Outstanding(ClaimStep(cfg, env, k, v, a).sub) == Outstanding(v.sub)
    ensures ClaimStep(cfg, env, k, v, a).wg == v.wg
  {
    if a.ClaimEntry? {
      StagesGrow(v.sub.stages, Decoding);
    }
  }

  lemma EmitKeepsControl(cfg: Config, env: Env, v: View, who: Loop, a: EmitAct)
    requires Controlled(cfg, v.sub) && EmitEnabled(env, v, who, a)
    ensures Controlled(cfg, EmitStep(env, v, who, a).sub)
    ensures var next := EmitStep(env, v, who, a);
            next.wg + Outstanding(v.sub) == v.wg + Outstanding(next.sub)
  {
    StagesChange(v.sub.stages, Current(v.sub, who).value, EmitStage(a));
  }

  lemma EndKeepsControl(cfg: Config, v: View, a: EndAct)
    requires Controlled(cfg, v.sub) && EndEnabled(v, a)
    ensures Controlled(cfg, EndStep(v, a).sub)
    ensures Outstanding(v.sub) <= v.wg ==>
              EndStep(v, a).wg + Outstanding(v.sub) == v.wg + Outstanding(EndStep(v, a).sub)
  {
  }

  lemma MsgCounts(cfg: Config, env: Env, v: View, n: nat, a: MsgAct)
    requires MsgEnabled(cfg, env, v, n, a)
    ensures var after := MsgStep(cfg, env, v, n, a).sub.stages;
            && Count(after, SLOT_STAGES) + One(a.Unwind?) == Count(v.sub.stages, SLOT_STAGES)
            && Count(after, WAITER_STAGES) + One(a.Leave?) == Count(v.sub.stages, WAITER_STAGES)
  {
    StagesChange(v.sub.stages, n, MsgStage(v.sub.deliveries[n], v.sub.stages[n], a));
  }

  lemma MsgKeepsControl(cfg: Config, env: Env, v: View, n: nat, a: MsgAct)
    requires Controlled(cfg, v.sub) && MsgEnabled(cfg, env, v, n, a)
    ensures Controlled(cfg, MsgStep(cfg, env, v, n, a).sub)
    ensures Outstanding(v.sub) <= v.wg ==>
              MsgStep(cfg, env, v, n, a).wg + Outstanding(v.sub) == v.wg + Outstanding(MsgStep(cfg, env, v, n, a).sub)
  {
    MsgCounts(cfg, env, v, n, a);
    assert LoopsOwn(MsgStep(cfg, env, v, n, a).sub);
  }

  // ----- the subscription's own steps: deliveries -----

  /** `log` grew into `next`, and the handler calls of at most one grant changed. */
  ghost predicate Grew(log: Log, next: Log, grant: nat) {
    && log.handled <= next.handled
    && log.dlq <= next.dlq
    && log.grants <= next.grants
    && |log.calls| == |log.grants| && |next.calls| == |next.grants|
    && forall g :: 0 <= g < |log.grants| && g != grant ==> next.calls[g] == log.calls[g]
  }

  ghost predicate Kept(cfg: Config, closing: bool, log: Log, k: nat, d: Delivery, stage: Stage) {
    Granted(cfg, log, k, d) && Justified(log, d, stage) && Drained(closing, d, stage)
  }

  lemma DeliveriesChange(cfg: Config, closing: bool, log: Log, next: Log, k: nat, sub: Sub, n: nat,
                         d: Delivery, stage: Stage)
    requires DeliveriesKept(cfg, closing, log, k, sub) && GrantsIncrease(log, sub) && n < |sub.deliveries|
    requires d.grant == sub.deliveries[n].grant && Grew(log, next, d.grant) && Kept(cfg, closing, next, k, d, stage)
    ensures var after := sub.(deliveries := sub.deliveries[n := d], stages := sub.stages[n := stage]);
            DeliveriesKept(cfg, closing, next, k, after) && GrantsIncrease(next, after)
  {
  }

  lemma DeliveriesGrow(cfg: Config, closing: bool, log: Log, next: Log, k: nat, sub: Sub, d: Delivery)
    requires DeliveriesKept(cfg, closing, log, k, sub) && GrantsIncrease(log, sub)
    requires d.grant == |log.grants| && Grew(log, next, d.grant) && Kept(cfg, closing, next, k, d, Decoding)
    ensures var after := sub.(deliveries := sub.deliveries + [d], stages := sub.stages + [Decoding]);
            DeliveriesKept(cfg, closing, next, k, after) && GrantsIncrease(next, after)
  {
  }

  lemma DeliveriesUntouched(cfg: Config, closing: bool, log: Log, next: Log, k: nat, sub: Sub)
    requires DeliveriesKept(cfg, closing, log, k, sub) && GrantsIncrease(log, sub)
    requires Grew(log, next, |log.grants|)
    ensures DeliveriesKept(cfg, closing, next, k, sub) && GrantsIncrease(next, sub)
  {
  }

  ghost predicate DeliveriesOk(cfg: Config, closing: bool, k: nat, v: View) {
    DeliveriesKept(cfg, closing, v.log, k, v.sub) && GrantsIncrease(v.log, v.sub) && |v.log.calls| == |v.log.grants|
  }

  lemma ReadKeepsDeliveries(cfg: Config, env: Env, k: nat, v: View, a: ReadAct)
    requires DeliveriesOk(cfg, env.closing, k, v) && ReadEnabled(cfg, env, v, a)
    ensures DeliveriesOk(cfg, env.closing, k, ReadStep(cfg, env, k, v, a))
  {
    var next := ReadStep(cfg, env, k, v, a);
    if a.ReadEntry? {
      DeliveriesGrow(cfg, env.closing, v.log, next.log, k, v.sub, next.sub.deliveries[|v.sub.deliveries|]);
    } else {
      DeliveriesUntouched(cfg, env.closing, v.log, next.log, k, v.sub);
    }
  }

  lemma ClaimKeepsDeliveries(cfg: Config, env: Env, k: nat, v: View, a: ClaimAct)
    requires DeliveriesOk(cfg, env.closing, k, v) && ClaimEnabled(cfg, env, v, a)
    ensures DeliveriesOk(cfg, env.closing, k, ClaimStep(cfg, env, k, v, a))
  {
    var next := ClaimStep(cfg, env, k, v, a);
    if a.ClaimEntry? {
      DeliveriesGrow(cfg, env.closing, v.log, next.log, k, v.sub, next.sub.deliveries[|v.sub.deliveries|]);
    } else {
      DeliveriesUntouched(cfg, env.closing, v.log, next.log, k, v.sub);
    }
  }

  lemma EmitKeepsDeliveries(cfg: Config, env: Env, k: nat, v: View, who: Loop, a: EmitAct)
    requires DeliveriesOk(cfg, env.closing, k, v) && EmitEnabled(env, v, who, a)
    ensures DeliveriesOk(cfg, env.closing, k, EmitStep(env, v, who, a))
  {
    var next, n := EmitStep(env, v, who, a), Current(v.sub, who).value;
    assert Kept(cfg, env.closing, v.log, k, v.sub.deliveries[n], v.sub.stages[n]);
    DeliveriesChange(cfg, env.closing, v.log, next.log, k, v.sub, n, next.sub.deliveries[n], next.sub.stages[n]);
    assert next.sub.deliveries == v.sub.deliveries[n := next.sub.deliveries[n]];
    assert next.sub.stages == v.sub.stages[n := next.sub.stages[n]];
  }

  lemma MsgKeepsDeliveries(cfg: Config, env: Env, k: nat, v: View, n: nat, a: MsgAct)
    requires DeliveriesOk(cfg, env.closing, k, v) && MsgEnabled(cfg, env, v, n, a)
    ensures DeliveriesOk(cfg, env.closing, k, MsgStep(cfg, env, v, n, a))
  {
    var next := MsgStep(cfg, env, v, n, a);
    assert Kept(cfg, env.closing, v.log, k, v.sub.deliveries[n], v.sub.stages[n]);
    DeliveriesChange(cfg, env.closing, v.log, next.log, k, v.sub, n, next.sub.deliveries[n], next.sub.stages[n]);
    assert next.sub.deliveries == v.sub.deliveries[n := next.sub.deliveries[n]];
    assert next.sub.stages == v.sub.stages[n := next.sub.stages[n]];
  }

  // ----- the subscription's own steps: the stream and the snapshot -----

  lemma StandsStill(cfg: Config, log: Log, k: nat)
    requires LogInv(cfg, log)
    ensures Extends(log, log, k)
  {
  }

  lemma ReadKeepsLog(cfg: Config, env: Env, k: nat, v: View, a: ReadAct)
    requires LogInv(cfg, v.log) && ReadEnabled(cfg, env, v, a)
    ensures var next := ReadStep(cfg, env, k, v, a); LogInv(cfg, next.log) && Extends(v.log, next.log, k)
  {
    match a
    case ReadEntry(id) => ReadKeeps(cfg, v.log, env.now, id, k, 1);
    case ReadReplyLost(id) => ReadKeeps(cfg, v.log, env.now, id, k, 0);
    case ReadRecreate(_) => EnsureKeeps(cfg, v.log, k);
    case _ =>
  }

  /** The head of the sweep, claimed with its line's stamp or with a reply that is lost. */
  lemma HeadKeepsLog(cfg: Config, log: Log, now: nat, todo: seq<Snapshot>, k: nat, stamp: nat)
    requires LogInv(cfg, log) && log.group.Some? && todo != [] && todo[0].id in log.group.value.pel
    requires SnapshotBehind(log, todo) && stamp <= todo[0].count + 1
    ensures LogInv(cfg, Claim(log, now, todo[0].id, k, stamp))
    ensures Extends(log, Claim(log, now, todo[0].id, k, stamp), k)
  {
    ClaimKeeps(cfg, log, now, todo[0].id, k, stamp);
  }

  lemma HeadLog(cfg: Config, env: Env, k: nat, v: View, a: ClaimAct)
    requires ClaimEnabled(cfg, env, v, a) && (a.ClaimEntry? || a.ClaimReplyLost?)
    ensures var todo := Todo(v.sub);
            && v.log.group.Some? && todo != [] && todo[0].id in v.log.group.value.pel
            && ClaimStep(cfg, env, k, v, a).log
               == Claim(v.log, env.now, todo[0].id, k, if a.ClaimEntry? then todo[0].count + 1 else 0)
  {
  }

  lemma HeadClaimKeepsLog(cfg: Config, env: Env, k: nat, v: View, a: ClaimAct)
    requires LogInv(cfg, v.log) && ClaimEnabled(cfg, env, v, a) && SnapshotBehind(v.log, Todo(v.sub))
    requires a.ClaimEntry? || a.ClaimReplyLost?
    ensures var next := ClaimStep(cfg, env, k, v, a); LogInv(cfg, next.log) && Extends(v.log, next.log, k)
  {
    HeadLog(cfg, env, k, v, a);
    HeadKeepsLog(cfg, v.log, env.now, Todo(v.sub), k, if a.ClaimEntry? then Todo(v.sub)[0].count + 1 else 0);
  }

  lemma ClaimKeepsLog(cfg: Config, env: Env, k: nat, v: View, a: ClaimAct)
    requires LogInv(cfg, v.log) && ClaimEnabled(cfg, env, v, a) && SnapshotBehind(v.log, Todo(v.sub))
    ensures var next := ClaimStep(cfg, env, k, v, a); LogInv(cfg, next.log) && Extends(v.log, next.log, k)
  {
    if a.ClaimEntry? || a.ClaimReplyLost? {
      HeadClaimKeepsLog(cfg, env, k, v, a);
    } else {
      EnsureKeeps(cfg, v.log, k);
      StandsStill(cfg, v.log, k);
      assert ClaimStep(cfg, env, k, v, a).log == v.log || ClaimStep(cfg, env, k, v, a).log == EnsureGroup(v.log);
    }
  }

  lemma EmitKeepsLog(cfg: Config, env: Env, k: nat, v: View, who: Loop, a: EmitAct)
    requires LogInv(cfg, v.log) && EmitEnabled(env, v, who, a)
    requires DeliveriesKept(cfg, env.closing, v.log, k, v.sub)
    ensures var next := EmitStep(env, v, who, a); LogInv(cfg, next.log) && Extends(v.log, next.log, k)
  {
    var n := Current(v.sub, who).value;
    var id := v.sub.deliveries[n].id;
    assert Justified(v.log, v.sub.deliveries[n], v.sub.stages[n]);
    match a
    case Hook(_, _) => SettleKeeps(cfg, v.log, id, k);
    case HookXack(_) => AckKeeps(cfg, v.log, id, k);
    case _ =>
  }

  lemma MsgKeepsLog(cfg: Config, env: Env, k: nat, v: View, n: nat, a: MsgAct)
    requires LogInv(cfg, v.log) && MsgEnabled(cfg, env, v, n, a)
    requires DeliveriesKept(cfg, env.closing, v.log, k, v.sub)
    ensures var next := MsgStep(cfg, env, v, n, a); LogInv(cfg, next.log) && Extends(v.log, next.log, k)
  {
    var d := v.sub.deliveries[n];
    assert Granted(cfg, v.log, k, d) && Justified(v.log, d, v.sub.stages[n]);
    match a
    case CallHandler => InvokeKeeps(cfg, v.log, d.grant);
    case PublishLetter(_, _) => SettleKeeps(cfg, v.log, d.id, k);
    case Return(_) => SettleKeeps(cfg, v.log, d.id, k);
    case Xack(_) => AckKeeps(cfg, v.log, d.id, k);
    case _ =>
  }

  lemma SnapshotStable(log: Log, next: Log, actor: int, todo: seq<Snapshot>)
    requires SnapshotBehind(log, todo) && Extends(log, next, actor)
    ensures SnapshotBehind(next, todo)
  {
  }

  lemma ClaimKeepsSnapshot(cfg: Config, env: Env, k: nat, v: View, a: ClaimAct)
    requires SnapshotBehind(v.log, Todo(v.sub)) && PelWellFormed(v.log) && ClaimEnabled(cfg, env, v, a)
    requires Extends(v.log, ClaimStep(cfg, env, k, v, a).log, k)
    ensures var next := ClaimStep(cfg, env, k, v, a); SnapshotBehind(next.log, Todo(next.sub))
  {
    var next := ClaimStep(cfg, env, k, v, a);
    SnapshotStable(v.log, next.log, k, Todo(v.sub));
  }

  lemma EmitKeepsSnapshot(cfg: Config, env: Env, k: nat, v: View, who: Loop, a: EmitAct)
    requires SnapshotBehind(v.log, Todo(v.sub)) && EmitEnabled(env, v, who, a)
    requires Extends(v.log, EmitStep(env, v, who, a).log, k)
    ensures var next := EmitStep(env, v, who, a); SnapshotBehind(next.log, Todo(next.sub))
  {
    var next := EmitStep(env, v, who, a);
    assert Todo(next.sub) == Todo(v.sub) || Todo(next.sub) == [];
    SnapshotStable(v.log, next.log, k, Todo(v.sub));
  }

  // ----- every step of the subscription keeps the invariant -----

  ghost predicate Ready(cfg: Config, closing: bool, k: nat, v: View) {
    LogInv(cfg, v.log) && SubInv(cfg, closing, v.log, k, v.sub) && Outstanding(v.sub) <= v.wg
  }

  /** The next view is ready, the stream only grew, and the WaitGroup moved with the goroutines. */
  ghost predicate Advances(cfg: Config, closing: bool, k: nat, v: View, next: View) {
    && Ready(cfg, closing, k, next)
    && Extends(v.log, next.log, k)
    && next.wg + Outstanding(v.sub) == v.wg + Outstanding(next.sub)
  }

  lemma ReadAdvances(cfg: Config, env: Env, k: nat, v: View, a: ReadAct)
    requires Ready(cfg, env.closing, k, v) && ReadEnabled(cfg, env, v, a)
    ensures Advances(cfg, env.closing, k, v, ReadStep(cfg, env, k, v, a))
  {
    ReadKeepsControl(cfg, env, k, v, a);
    ReadKeepsDeliveries(cfg, env, k, v, a);
    ReadKeepsLog(cfg, env, k, v, a);
    SnapshotStable(v.log, ReadStep(cfg, env, k, v, a).log, k, Todo(v.sub));
  }

  lemma ClaimAdvances(cfg: Config, env: Env, k: nat, v: View, a: ClaimAct)
    requires Ready(cfg, env.closing, k, v) && ClaimEnabled(cfg, env, v, a)
    ensures Advances(cfg, env.closing, k, v, ClaimStep(cfg, env, k, v, a))
  {
    ClaimKeepsControl(cfg, env, k, v, a);
    ClaimKeepsDeliveries(cfg, env, k, v, a);
    ClaimKeepsLog(cfg, env, k, v, a);
    ClaimKeepsSnapshot(cfg, env, k, v, a);
  }

  lemma EmitAdvances(cfg: Config, env: Env, k: nat, v: View, who: Loop, a: EmitAct)
    requires Ready(cfg, env.closing, k, v) && EmitEnabled(env, v, who, a)
    ensures Advances(cfg, env.closing, k, v, EmitStep(env, v, who, a))
  {
    EmitKeepsControl(cfg, env, v, who, a);
    EmitKeepsDeliveries(cfg, env, k, v, who, a);
    EmitKeepsLog(cfg, env, k, v, who, a);
    EmitKeepsSnapshot(cfg, env, k, v, who, a);
  }

  lemma EndAdvances(cfg: Config, closing: bool, k: nat, v: View, a: EndAct)
    requires Ready(cfg, closing, k, v) && EndEnabled(v, a)
    ensures Advances(cfg, closing, k, v, EndStep(v, a))
  {
    EndKeepsControl(cfg, v, a);
    var next := EndStep(v, a);
    assert next.log == v.log && Todo(next.sub) == Todo(v.sub);
    DeliveriesUntouched(cfg, closing, v.log, v.log, k, next.sub);
  }

  lemma MsgAdvances(cfg: Config, env: Env, k: nat, v: View, n: nat, a: MsgAct)
    requires Ready(cfg, env.closing, k, v) && MsgEnabled(cfg, env, v, n, a)
    ensures Advances(cfg, env.closing, k, v, MsgStep(cfg, env, v, n, a))
  {
    MsgKeepsControl(cfg, env, v, n, a);
    MsgKeepsDeliveries(cfg, env, k, v, n, a);
    MsgKeepsLog(cfg, env, k, v, n, a);
    SnapshotStable(v.log, MsgStep(cfg, env, v, n, a).log, k, Todo(v.sub));
  }

  lemma StepAdvances(cfg: Config, env: Env, k: nat, v: View, a: SubAct)
    requires Ready(cfg, env.closing, k, v) && Enabled(cfg, env, v, a)
    ensures Advances(cfg, env.closing, k, v, Step(cfg, env, k, v, a))
  {
    match a
    case OfReader(r) => ReadAdvances(cfg, env, k, v, r);
    case OfClaimer(c) => ClaimAdvances(cfg, env, k, v, c);
    case OfEmit(who, e) => EmitAdvances(cfg, env, k, v, who, e);
    case OfEnd(z) => EndAdvances(cfg, env.closing, k, v, z);
    case OfMessage(n, m) => MsgAdvances(cfg, env, k, v, n, m);
  }

  // ----- the steps of the others -----

  /** What one subscription keeps survives every step of another one and of the environment. */
  lemma Stable(cfg: Config, closing: bool, nowClosing: bool, log: Log, next: Log, actor: int, k: nat, sub: Sub)
    requires SubInv(cfg, closing, log, k, sub) && LogInv(cfg, next)
    requires Extends(log, next, actor) && actor != k && (closing ==> nowClosing)
    ensures SubInv(cfg, nowClosing, next, k, sub)
  {
  }
}
