/** Registration, Run and Close of one Consumer (consumer.go): the class as its critical sections change it,
    and every interleaving of callers as a transition system over the same values. */
module Lifecycle {
  import opened Basics
  import opened Validation
  import opened RegistryModel

  datatype EventDef = EventDef(topic: string, eventType: string, version: string)

  datatype LifeError =
    | TopicMissing | TypeMissing | TypeMalformed | VersionMissing | VersionMalformed | MajorTooLarge
    | AlreadyRunning | Refused(reason: RegistryError)
    | NothingRegistered | RunTwice

  datatype TeardownError = NoPublisher | NoSubscriber | NoRouter | RunFailed | RouterCloseFailed | ReaderCloseFailed

  // ----- what a registration must name -----

  /** validateEventDef, then majorVersion. */
  function DefError(def: EventDef): Option<LifeError> {
    if def.topic == "" then Some(TopicMissing)
    else if def.eventType == "" then Some(TypeMissing)
    else if !IsEventType(def.eventType) then Some(TypeMalformed)
    else if def.version == "" then Some(VersionMissing)
    else if !IsSchemaVersion(def.version) then Some(VersionMalformed)
    else if MajorVersion(def.version).None? then Some(MajorTooLarge)
    else None
  }

  /** Which definitions are refused, and why: each reason applies when its own check fails and the ones before it pass. */
  lemma DefRules(def: EventDef)
    ensures var typed, versioned := IsEventType(def.eventType), IsSchemaVersion(def.version);
            var err, named := DefError(def), def.topic != "" && def.eventType != "";
            && (err == Some(TopicMissing) <==> def.topic == "")
            && (err == Some(TypeMissing) <==> def.topic != "" && def.eventType == "")
            && (err == Some(TypeMalformed) <==> named && !typed)
            && (err == Some(VersionMissing) <==> named && typed && def.version == "")
            && (err == Some(VersionMalformed) <==> named && typed && def.version != "" && !versioned)
            && (err == Some(MajorTooLarge) <==> named && typed && versioned && MajorVersion(def.version).None?)
            && (err.None? <==> named && typed && versioned && MajorVersion(def.version).Some?)
  {
  }

  /** The registration a definition asks for. */
  function RegistrationOf(def: EventDef, fn: Handler): Registration
    requires DefError(def).None?
  {
    Typed(RouteKey(def.topic, def.eventType, MajorVersion(def.version).value), fn)
  }

  // ----- the fields the mutex guards -----

  /** `reader` is the number of the reader in c.reader, `dlq` whether c.dlq is set. */
  datatype Shared = Shared(accepted: seq<Registration>, running: bool, reader: Option<nat>, dlq: bool)

  function RegisterError(s: Shared, r: Registration): Option<LifeError> {
    if s.running then Some(AlreadyRunning)
    else match Refusal(s.accepted, r)
         case Some(e) => Some(Refused(e))
         case None => None
  }

  function Registered(s: Shared, r: Registration): Shared {
    if RegisterError(s, r).Some? then s else s.(accepted := s.accepted + [r])
  }

  function RunError(s: Shared): Option<LifeError> {
    if s.accepted == [] then Some(NothingRegistered) else if s.running then Some(RunTwice) else None
  }

  class StreamReader {
    const id: nat
    var closes: nat

    constructor (id: nat)
      ensures this.id == id && closes == 0
    {
      this.id, closes := id, 0;
    }

    method Close(works: bool) returns (ok: bool)
      modifies this
      ensures ok == works && closes == old(closes) + 1
    {
      closes := closes + 1;
      ok := works;
    }
  }

  /** What the environment makes of one Run. */
  datatype RunWorld = RunWorld(
    readerId: nat, publisher: bool, subscriber: bool, router: bool, run: bool, routerClose: bool, readerClose: bool)

  function StreamName(prefix: string, topic: string): string {
    prefix + ":" + topic
  }

  function DlqStream(prefix: string, topic: string): string {
    StreamName(prefix, topic) + ".dlq"
  }

  /** Distinct topics have distinct streams, so a stream names its topic; a DLQ stream is the stream of a topic
      exactly when that topic is spelled with the suffix. */
  lemma StreamsNameTopics(prefix: string, a: string, b: string)
    ensures StreamName(prefix, a) == StreamName(prefix, b) <==> a == b
    ensures StreamName(prefix, a) == DlqStream(prefix, b) <==> a == b + ".dlq"
  {
    assert StreamName(prefix, a)[|prefix| + 1..] == a;
    assert StreamName(prefix, b)[|prefix| + 1..] == b;
    assert DlqStream(prefix, b) == StreamName(prefix, b + ".dlq");
    assert StreamName(prefix, b + ".dlq")[|prefix| + 1..] == b + ".dlq";
  }

  /** The inverse of StreamName over the subscribed topics. */
  method TopicsByStream(prefix: string, topics: seq<string>) returns (table: map<string, string>)
    ensures forall topic :: topic in topics ==> StreamName(prefix, topic) in table
    ensures forall stream :: stream in table ==> table[stream] in topics && stream == StreamName(prefix, table[stream])
  {
    table := map[];
    for i := 0 to |topics|
      invariant forall j :: 0 <= j < i ==> StreamName(prefix, topics[j]) in table
      invariant forall stream :: stream in table ==> table[stream] in topics && stream == StreamName(prefix, table[stream])
    {
      table := table[StreamName(prefix, topics[i]) := topics[i]];
    }
  }

  class Consumer {
    const registry: Registry
    var running: bool
    var reader: StreamReader?
    var dlq: bool

    ghost predicate Valid()
      reads this, registry
    {
      registry.Valid()
    }

    ghost function Shown(): Shared
      reads this, registry
    {
      Shared(registry.accepted, running, if reader == null then None else Some(reader.id), dlq)
    }

    constructor ()
      ensures Valid() && fresh(registry) && Shown() == Shared([], false, None, false)
    {
      registry := new Registry();
      running, reader, dlq := false, null, false;
    }

    /** RegisterHandler: refused for a malformed definition, once running, or by the registry. */
    method RegisterHandler(def: EventDef, fn: Handler) returns (err: Option<LifeError>)
      requires Valid()
      modifies registry
      ensures Valid()
      ensures err == if DefError(def).Some? then DefError(def) else RegisterError(old(Shown()), RegistrationOf(def, fn))
      ensures Shown() == if DefError(def).Some? then old(Shown()) else Registered(old(Shown()), RegistrationOf(def, fn))
      ensures DefError(def).None? && old(running) ==> err == Some(AlreadyRunning)
      ensures err.None? <==> && DefError(def).None? && !old(running)
                             && Refusal(old(registry.accepted), RegistrationOf(def, fn)).None?
      ensures registry.accepted == if err.Some? then old(registry.accepted)
                                   else old(registry.accepted) + [RegistrationOf(def, fn)]
    {
      if def.topic == "" {
        return Some(TopicMissing);
      }
      if def.eventType == "" {
        return Some(TypeMissing);
      }
      if !IsEventType(def.eventType) {
        return Some(TypeMalformed);
      }
      if def.version == "" {
        return Some(VersionMissing);
      }
      if !IsSchemaVersion(def.version) {
        return Some(VersionMalformed);
      }
      var major := MajorVersion(def.version);
      if major.None? {
        return Some(MajorTooLarge);
      }
      if running {
        return Some(AlreadyRunning);
      }
      var refusal := registry.AddTyped(def.topic, def.eventType, major.value, fn);
      err := if refusal.Some? then Some(Refused(refusal.value)) else None;
    }

    method RegisterRawHandler(topic: string, fn: Handler) returns (err: Option<LifeError>)
      requires Valid()
      modifies registry
      ensures Valid()
      ensures err == if topic == "" then Some(TopicMissing) else RegisterError(old(Shown()), Raw(topic, fn))
      ensures Shown() == if topic == "" then old(Shown()) else Registered(old(Shown()), Raw(topic, fn))
      ensures topic != "" && old(running) ==> err == Some(AlreadyRunning)
      ensures err.None? <==> topic != "" && !old(running) && Refusal(old(registry.accepted), Raw(topic, fn)).None?
      ensures registry.accepted == if err.None? then old(registry.accepted) + [Raw(topic, fn)] else old(registry.accepted)
    {
      if topic == "" {
        return Some(TopicMissing);
      }
      if running {
        return Some(AlreadyRunning);
      }
      var refusal := registry.AddRaw(topic, fn);
      err := if refusal.Some? then Some(Refused(refusal.value)) else None;
    }

    /** Run's first critical section: both checks and the snapshot of the topics. */
    method BeginRun() returns (err: Option<LifeError>, topics: seq<string>)
      requires Valid()
      modifies `running
      ensures Valid() && err == RunError(old(Shown()))
      ensures err == if registry.accepted == [] then Some(NothingRegistered)
                     else if old(running) then Some(RunTwice) else None
      ensures Shown() == if err.Some? then old(Shown()) else old(Shown()).(running := true)
      ensures err.None? ==> forall topic :: topic in topics <==> topic in TopicsOf(registry.accepted)
    {
      topics := [];
      var empty := registry.IsEmpty();
      if empty {
        return Some(NothingRegistered), topics;
      }
      if running {
        return Some(RunTwice), topics;
      }
      topics := registry.TopicList();
      running := true;
      err := None;
    }

    /** closeReader: closes the reader, then clears both fields. */
    method CloseReader(r: StreamReader, works: bool) returns (ok: bool)
      requires Valid()
      modifies `reader, `dlq, r
      ensures Valid() && ok == works && r.closes == old(r.closes) + 1
      ensures Shown() == old(Shown()).(reader := None, dlq := false)
    {
      ok := r.Close(works);
      reader := null;
      dlq := false;
    }

    /** Run on its own: whatever fails, the reader it opened is closed exactly once, every failure is reported,
        and the consumer is left running for good with neither reader nor sink. */
    method Run(w: RunWorld) returns (err: Option<LifeError>, failures: seq<TeardownError>, own: StreamReader?)
      requires Valid()
      modifies `running, `reader, `dlq
      ensures Valid() && err == RunError(old(Shown()))
      ensures err.Some? ==> own == null && failures == [] && Shown() == old(Shown())
      ensures err.None? ==> own != null && fresh(own) && own.closes == 1
      ensures err.None? ==> Shown() == Shared(old(registry.accepted), true, None, false)
      ensures err.None? ==>
                failures == if !w.publisher then [NoPublisher]
                            else if !w.subscriber then [NoSubscriber]
                            else if !w.router then [NoRouter]
                            else (if w.run then [] else [RunFailed])
                                 + (if w.routerClose then [] else [RouterCloseFailed])
                                 + (if w.readerClose then [] else [ReaderCloseFailed])
    {
      var topics;
      err, topics := BeginRun();
      failures, own := [], null;
      if err.Some? {
        return;
      }
      own := new StreamReader(w.readerId);
      if !w.publisher {
        var _ := CloseReader(own, w.readerClose);
        return err, [NoPublisher], own;
      }
      reader := own;
      dlq := true;
      if !w.subscriber {
        var _ := CloseReader(own, w.readerClose);
        return err, [NoSubscriber], own;
      }
      if !w.router {
        var _ := CloseReader(own, w.readerClose);
        return err, [NoRouter], own;
      }
      var closed := CloseReader(own, w.readerClose);
      failures := (if w.run then [] else [RunFailed])
                  + (if w.routerClose then [] else [RouterCloseFailed])
                  + (if closed then [] else [ReaderCloseFailed]);
    }

    /** Close: nothing once Run has started. */
    method Close(works: bool) returns (ok: bool)
      requires Valid()
      modifies `reader, reader
      ensures Valid()
      ensures Shown() == if running then old(Shown()) else old(Shown()).(reader := None)
      ensures ok <==> running || old(reader) == null || works
      ensures old(reader) != null ==> old(reader).closes == old(reader.closes) + One(!running)
    {
      if running {
        return true;
      }
      var r := reader;
      reader := null;
      if r == null {
        return true;
      }
      ok := r.Close(works);
    }
  }

  // ----- every interleaving -----

  /** Where one accepted call of Run is. Each step is one critical section, or one call outside the lock. */
  datatype Phase =
    | Started(topics: set<string>) | Holding(topics: set<string>, r: nat) | Serving(topics: set<string>, r: nat)
    | Clearing(topics: set<string>, r: nat) | Returned(topics: set<string>, r: nat)

  /** `closes[r]` counts the Close calls on reader `r`. */
  datatype Life = Life(shared: Shared, runs: seq<Phase>, closes: seq<nat>)

  datatype Act =
    | RegisterTyped(def: EventDef, fn: Handler) | RegisterRaw(topic: string, fn: Handler)
    | CallRun | OpenReader(n: nat) | Install(n: nat) | CloseClient(n: nat) | ClearFields(n: nat)
    | CallClose

  const NEW_CONSUMER := Life(Shared([], false, None, false), [], [])

  predicate Possible(l: Life, a: Act) {
    match a
    case OpenReader(n) => n < |l.runs| && l.runs[n].Started?
    case Install(n) => n < |l.runs| && l.runs[n].Holding?
    case CloseClient(n) => n < |l.runs| && (l.runs[n].Holding? || l.runs[n].Serving?) && l.runs[n].r < |l.closes|
    case ClearFields(n) => n < |l.runs| && l.runs[n].Clearing?
    case _ => true
  }

  function Step(l: Life, a: Act): Life
    requires Possible(l, a)
  {
    var s := l.shared;
    match a
    case RegisterTyped(def, fn) => if DefError(def).Some? then l else l.(shared := Registered(s, RegistrationOf(def, fn)))
    case RegisterRaw(topic, fn) => if topic == "" then l else l.(shared := Registered(s, Raw(topic, fn)))
    case CallRun =>
      if RunError(s).Some? then l
      else l.(shared := s.(running := true), runs := l.runs + [Started(TopicsOf(s.accepted))])
    case OpenReader(n) =>
      l.(runs := l.runs[n := Holding(l.runs[n].topics, |l.closes|)], closes := l.closes + [0])
    case Install(n) =>
      l.(shared := s.(reader := Some(l.runs[n].r), dlq := true), runs := l.runs[n := Serving(l.runs[n].topics, l.runs[n].r)])
    case CloseClient(n) =>
      var r := l.runs[n].r;
      l.(runs := l.runs[n := Clearing(l.runs[n].topics, r)], closes := l.closes[r := l.closes[r] + 1])
    case ClearFields(n) =>
      l.(shared := s.(reader := None, dlq := false), runs := l.runs[n := Returned(l.runs[n].topics, l.runs[n].r)])
    case CallClose =>
      if s.running then l
      else match s.reader
           case Some(r) =>
             l.(shared := s.(reader := None), closes := if r < |l.closes| then l.closes[r := l.closes[r] + 1] else l.closes)
           case None => l
  }

  ghost predicate IsLife(lives: seq<Life>, acts: seq<Act>) {
    && |lives| == |acts| + 1
    && lives[0] == NEW_CONSUMER
    && forall i {:trigger acts[i]} :: 0 <= i < |acts| ==>
         Possible(lives[i], acts[i]) && lives[i + 1] == Step(lives[i], acts[i])
  }

  /** The fields and the reader's Close calls that belong to each phase of the one Run. */
  predicate PhaseKept(p: Phase, s: Shared, closes: seq<nat>) {
    && p.topics == TopicsOf(s.accepted)
    && match p
       case Started(_) => s.reader.None? && !s.dlq && closes == []
       case Holding(_, r) => s.reader.None? && !s.dlq && r == 0 && closes == [0]
       case Serving(_, r) => s.reader == Some(0) && s.dlq && r == 0 && closes == [0]
       case Clearing(_, r) => r == 0 && closes == [1]
       case Returned(_, r) => s.reader.None? && !s.dlq && r == 0 && closes == [1]
  }

  ghost predicate LifeKept(l: Life) {
    && Exclusive(l.shared.accepted)
    && if l.shared.running then |l.runs| == 1 && l.shared.accepted != [] && PhaseKept(l.runs[0], l.shared, l.closes)
       else l.runs == [] && l.closes == [] && l.shared.reader.None? && !l.shared.dlq
  }

  lemma RegisteredKept(s: Shared, r: Registration)
    requires Exclusive(s.accepted)
    ensures Exclusive(Registered(s, r).accepted) && s.accepted <= Registered(s, r).accepted
  {
    if RegisterError(s, r).None? {
      AcceptKeepsExclusive(s.accepted, r);
    }
  }

  lemma StepKept(l: Life, a: Act)
    requires LifeKept(l) && Possible(l, a)
    ensures LifeKept(Step(l, a)) && l.shared.accepted <= Step(l, a).shared.accepted
    ensures l.shared.running ==> Step(l, a).shared.running && Step(l, a).shared.accepted == l.shared.accepted
  {
    match a
    case RegisterTyped(def, fn) => if DefError(def).None? { RegisteredKept(l.shared, RegistrationOf(def, fn)); }
    case RegisterRaw(topic, fn) => RegisteredKept(l.shared, Raw(topic, fn));
    case _ =>
  }

  lemma {:induction false} LifeReachable(lives: seq<Life>, acts: seq<Act>, i: nat)
    requires IsLife(lives, acts) && i < |lives|
    ensures LifeKept(lives[i])
  {
    if i > 0 {
      LifeReachable(lives, acts, i - 1);
      assert Possible(lives[i - 1], acts[i - 1]);
      StepKept(lives[i - 1], acts[i - 1]);
    }
  }

  lemma {:induction false} Frozen(lives: seq<Life>, acts: seq<Act>, i: nat, j: nat)
    requires IsLife(lives, acts) && i <= j < |lives|
    ensures lives[i].shared.accepted <= lives[j].shared.accepted
    ensures lives[i].shared.running ==>
              lives[j].shared.running && lives[j].shared.accepted == lives[i].shared.accepted
    decreases j
  {
    if i < j {
      Frozen(lives, acts, i, j - 1);
      LifeReachable(lives, acts, j - 1);
      assert Possible(lives[j - 1], acts[j - 1]);
      StepKept(lives[j - 1], acts[j - 1]);
    }
  }

  /** However register, Run and Close interleave, at most one Run passes its checks, and the topics it
      subscribes to are those of the final registry: no registration slips in behind the snapshot. */
  lemma SnapshotIsFinal(lives: seq<Life>, acts: seq<Act>, i: nat, j: nat, n: nat)
    requires IsLife(lives, acts) && i <= j < |lives| && n < |lives[i].runs|
    ensures |lives[j].runs| == 1 && n == 0
    ensures lives[i].runs[n].topics == TopicsOf(lives[j].shared.accepted) == lives[j].runs[0].topics
    ensures lives[i].runs[n].topics != {}
  {
    LifeReachable(lives, acts, i);
    LifeReachable(lives, acts, j);
    Frozen(lives, acts, i, j);
    assert lives[i].shared.accepted[0] in lives[i].shared.accepted;
    assert lives[i].shared.accepted[0].Topic() in TopicsOf(lives[i].shared.accepted);
  }

  /** A reader is closed at most once, only by the Run that opened it, never while that Run is serving, and
      exactly once by the time that Run has returned. */
  lemma ReaderClosedOnce(lives: seq<Life>, acts: seq<Act>, i: nat)
    requires IsLife(lives, acts) && i < |lives|
    ensures |lives[i].closes| <= |lives[i].runs| <= 1
    ensures forall n :: 0 <= n < |lives[i].runs| && !lives[i].runs[n].Started? ==>
              && lives[i].runs[n].r < |lives[i].closes|
              && lives[i].closes[lives[i].runs[n].r] == One(lives[i].runs[n].Clearing? || lives[i].runs[n].Returned?)
              && (lives[i].runs[n].Serving? ==> lives[i].shared.reader == Some(lives[i].runs[n].r) && lives[i].shared.dlq)
              && (lives[i].runs[n].Returned? ==> lives[i].shared.reader.None? && !lives[i].shared.dlq)
    ensures lives[i].shared.reader.Some? ==>
              && lives[i].shared.running
              && exists n :: 0 <= n < |lives[i].runs| && (lives[i].runs[n].Serving? || lives[i].runs[n].Clearing?)
  {
    LifeReachable(lives, acts, i);
    if lives[i].shared.reader.Some? {
      assert lives[i].runs[0].Serving? || lives[i].runs[0].Clearing?;
    }
  }

  /** A concurrent Close never changes anything: before Run there is no reader, and afterwards it stands aside. */
  lemma CloseStandsAside(lives: seq<Life>, acts: seq<Act>, i: nat)
    requires IsLife(lives, acts) && i < |acts| && acts[i].CallClose?
    ensures lives[i + 1] == lives[i]
  {
    LifeReachable(lives, acts, i);
  }

  /** Each topic has typed handlers or one raw handler, a route has one handler, and nothing is registered once
      Run has started. */
  lemma RegistryStaysExclusive(lives: seq<Life>, acts: seq<Act>, i: nat, j: nat)
    requires IsLife(lives, acts) && i <= j < |lives|
    ensures Exclusive(lives[j].shared.accepted)
    ensures lives[i].shared.accepted <= lives[j].shared.accepted
    ensures lives[i].shared.running ==> lives[j].shared.accepted == lives[i].shared.accepted
  {
    LifeReachable(lives, acts, j);
    Frozen(lives, acts, i, j);
  }

  /** A handler whose registration was accepted receives, in every later state, every valid event of its type on
      its topic whose version has the same numeric major, whatever the minor and patch parts. */
  lemma HandlerReceives(lives: seq<Life>, acts: seq<Act>, i: nat, j: nat, def: EventDef, fn: Handler, version: string)
    requires IsLife(lives, acts) && i < |acts| && i < j < |lives|
    requires acts[i] == RegisterTyped(def, fn) && lives[i + 1] != lives[i]
    requires MajorVersion(version) == MajorVersion(def.version)
    ensures Exclusive(lives[j].shared.accepted) && MajorVersion(version).Some?
    ensures Found(lives[j].shared.accepted, def.topic, def.eventType, MajorVersion(version).value) == TypedMatch(fn)
  {
    assert Possible(lives[i], acts[i]);
    LifeReachable(lives, acts, j);
    Frozen(lives, acts, i + 1, j);
    var log := lives[j].shared.accepted;
    assert lives[i + 1].shared.accepted[|lives[i].shared.accepted|] == RegistrationOf(def, fn);
    assert log[|lives[i].shared.accepted|] == RegistrationOf(def, fn);
    var major := MajorVersion(version).value;
    ScanIsUnique(log, def.topic, def.eventType, major, TypedMatch(fn), Found(log, def.topic, def.eventType, major));
  }
}
