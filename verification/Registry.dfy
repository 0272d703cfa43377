/** The routing index of registry.go, held against the log of accepted registrations. */
module RegistryModel {
  import opened Basics

  /** A topic, an event type and a major version. */
  datatype RouteKey = RouteKey(topic: string, eventType: string, major: int)

  /** Handlers are known by number: what they do is the caller's business. */
  type Handler = nat

  datatype Registration = Typed(key: RouteKey, fn: Handler) | Raw(topic_: string, fn: Handler) {
    function Topic(): string {
      if Typed? then key.topic else topic_
    }
  }

  datatype RegistryError = RawExists | RouteExists | TypedExist

  datatype Match = NoMatch | TypedMatch(fn: Handler) | RawMatch(fn: Handler)

  // ----- what the maps must hold -----

  function TypedOf(log: seq<Registration>): map<RouteKey, Handler> {
    if log == [] then map[]
    else
      var r := log[|log| - 1];
      var before := TypedOf(log[..|log| - 1]);
      if r.Typed? then before[r.key := r.fn] else before
  }

  function RawOf(log: seq<Registration>): map<string, Handler> {
    if log == [] then map[]
    else
      var r := log[|log| - 1];
      var before := RawOf(log[..|log| - 1]);
      if r.Raw? then before[r.topic_ := r.fn] else before
  }

  function TopicsOf(log: seq<Registration>): set<string> {
    set r | r in log :: r.Topic()
  }

  /** A topic has typed handlers or one raw handler, and a route has one handler. */
  ghost predicate Exclusive(log: seq<Registration>) {
    && (forall i, j :: 0 <= i < |log| && 0 <= j < |log| && i != j && log[i].Topic() == log[j].Topic() ==>
         log[i].Typed? && log[j].Typed?)
    && (forall i, j :: 0 <= i < |log| && 0 <= j < |log| && i != j && log[i].Typed? && log[j].Typed? ==>
         log[i].key != log[j].key)
  }

  /** Whether the log leaves room for `r`: the reason it does not, if so. */
  function Refusal(log: seq<Registration>, r: Registration): Option<RegistryError> {
    match r
    case Typed(key, _) =>
      if exists o :: o in log && o.Raw? && o.topic_ == key.topic then Some(RawExists)
      else if exists o :: o in log && o.Typed? && o.key == key then Some(RouteExists)
      else None
    case Raw(topic, _) =>
      if exists o :: o in log && o.Raw? && o.topic_ == topic then Some(RawExists)
      else if exists o :: o in log && o.Typed? && o.key.topic == topic then Some(TypedExist)
      else None
  }

  /** Looking an event up by scanning the accepted registrations. */
  ghost predicate ScanFinds(log: seq<Registration>, topic: string, eventType: string, major: int, m: Match) {
    match m
    case RawMatch(fn) => Raw(topic, fn) in log
    case TypedMatch(fn) => Typed(RouteKey(topic, eventType, major), fn) in log
    case NoMatch =>
      forall r :: r in log ==> (r.Raw? ==> r.topic_ != topic) && (r.Typed? ==> r.key != RouteKey(topic, eventType, major))
  }

  /** The typed map holds exactly the typed registrations. */
  lemma {:induction false} TypedHolds(log: seq<Registration>)
    requires Exclusive(log)
    ensures forall key :: key in TypedOf(log) ==> Typed(key, TypedOf(log)[key]) in log
    ensures forall r :: r in log && r.Typed? ==> r.key in TypedOf(log) && TypedOf(log)[r.key] == r.fn
  {
    if log != [] {
      var before, last := log[..|log| - 1], log[|log| - 1];
      TypedHolds(before);
      assert log == before + [last];
      forall r | r in log && r.Typed? ensures r.key in TypedOf(log) && TypedOf(log)[r.key] == r.fn {
        var i :| 0 <= i < |log| && log[i] == r;
        if i < |before| {
          assert before[i] == r && r in before;
        }
      }
    }
  }

  ghost predicate OneRawPerTopic(log: seq<Registration>) {
    forall i, j :: 0 <= i < j < |log| && log[i].Raw? && log[j].Raw? ==> log[i].topic_ != log[j].topic_
  }

  lemma {:induction false} RawMapHolds(log: seq<Registration>)
    requires OneRawPerTopic(log)
    ensures forall topic :: topic in RawOf(log) ==> Raw(topic, RawOf(log)[topic]) in log
    ensures forall r :: r in log && r.Raw? ==> r.topic_ in RawOf(log) && RawOf(log)[r.topic_] == r.fn
  {
    if log != [] {
      var before, last := log[..|log| - 1], log[|log| - 1];
      RawMapHolds(before);
      assert log == before + [last];
      forall r | r in log && r.Raw? ensures r.topic_ in RawOf(log) && RawOf(log)[r.topic_] == r.fn {
        var i :| 0 <= i < |log| && log[i] == r;
        if i < |before| {
          assert before[i] == r && r in before;
        }
      }
    }
  }

  /** The raw map holds exactly the raw registrations. */
  lemma RawHolds(log: seq<Registration>)
    requires Exclusive(log)
    ensures forall topic :: topic in RawOf(log) ==> Raw(topic, RawOf(log)[topic]) in log
    ensures forall r :: r in log && r.Raw? ==> r.topic_ in RawOf(log) && RawOf(log)[r.topic_] == r.fn
  {
    forall i, j | 0 <= i < j < |log| && log[i].Raw? && log[j].Raw? ensures log[i].topic_ != log[j].topic_ {
      assert log[i].Topic() != log[j].Topic();
    }
    RawMapHolds(log);
  }

  /** A registration is refused exactly when taking it would give a topic or a route two handlers that exclude each
      other, and the reason names the kind of handler in the way: a raw one on the topic, the same route, or a typed one on
      the topic of a raw handler. */
  lemma RefusedIffExcluded(log: seq<Registration>, r: Registration)
    requires Exclusive(log)
    ensures Refusal(log, r).None? <==> Exclusive(log + [r])
    ensures Refusal(log, r) == Some(RawExists) <==> exists o :: o in log && o.Raw? && o.Topic() == r.Topic()
    ensures Refusal(log, r) == Some(RouteExists) <==> r.Typed? && exists o :: o in log && o.Typed? && o.key == r.key
    ensures Refusal(log, r) == Some(TypedExist) <==> r.Raw? && exists o :: o in log && o.Typed? && o.Topic() == r.Topic()
  {
    var more := log + [r];
    if Refusal(log, r).None? {
      AcceptKeepsExclusive(log, r);
    } else {
      var o :| o in log && (if r.Typed? then (o.Raw? && o.topic_ == r.key.topic) || (o.Typed? && o.key == r.key)
                            else o.Topic() == r.topic_);
      var i :| 0 <= i < |log| && log[i] == o;
      assert more[i] == o && more[|log|] == r;
    }
    forall o, p | o in log && p in log && o.Raw? && p.Typed? ensures o.Topic() != p.Topic() {
      var i :| 0 <= i < |log| && log[i] == o;
      var j :| 0 <= j < |log| && log[j] == p;
      assert i != j;
    }
  }

  lemma AcceptKeepsExclusive(log: seq<Registration>, r: Registration)
    requires Exclusive(log) && Refusal(log, r).None?
    ensures Exclusive(log + [r])
  {
    forall i | 0 <= i < |log| ensures log[i].Topic() == r.Topic() ==> log[i].Typed? && r.Typed? && log[i].key != r.key {
      assert log[i] in log;
    }
  }

  /** The maps give the same refusal as the log. */
  lemma TypedRefusal(log: seq<Registration>, key: RouteKey, fn: Handler)
    requires Exclusive(log)
    ensures Refusal(log, Typed(key, fn))
         == if key.topic in RawOf(log) then Some(RawExists) else if key in TypedOf(log) then Some(RouteExists) else None
  {
    TypedHolds(log);
    RawHolds(log);
  }

  lemma RawRefusal(log: seq<Registration>, topic: string, fn: Handler)
    requires Exclusive(log)
    ensures Refusal(log, Raw(topic, fn))
         == if topic in RawOf(log) then Some(RawExists)
            else if exists key :: key in TypedOf(log) && key.topic == topic then Some(TypedExist) else None
  {
    TypedHolds(log);
    RawHolds(log);
  }

  lemma MapsAfter(log: seq<Registration>, r: Registration)
    ensures TypedOf(log + [r]) == if r.Typed? then TypedOf(log)[r.key := r.fn] else TypedOf(log)
    ensures RawOf(log + [r]) == if r.Raw? then RawOf(log)[r.topic_ := r.fn] else RawOf(log)
    ensures TopicsOf(log + [r]) == TopicsOf(log) + {r.Topic()}
  {
    assert (log + [r])[..|log|] == log;
    assert forall o :: o in log + [r] <==> o in log || o == r;
  }

  /** Two answers of a scan agree: the log determines the match. */
  lemma ScanIsUnique(log: seq<Registration>, topic: string, eventType: string, major: int, m: Match, n: Match)
    requires Exclusive(log) && ScanFinds(log, topic, eventType, major, m) && ScanFinds(log, topic, eventType, major, n)
    ensures m == n
  {
    if !m.NoMatch? && !n.NoMatch? {
      var a := if m.RawMatch? then Raw(topic, m.fn) else Typed(RouteKey(topic, eventType, major), m.fn);
      var b := if n.RawMatch? then Raw(topic, n.fn) else Typed(RouteKey(topic, eventType, major), n.fn);
      var i :| 0 <= i < |log| && log[i] == a;
      var j :| 0 <= j < |log| && log[j] == b;
      assert log[i].Topic() == log[j].Topic();
    }
  }

  /** What a lookup must return: the match the scan finds. */
  ghost function Found(log: seq<Registration>, topic: string, eventType: string, major: int): (m: Match)
    requires Exclusive(log)
    ensures ScanFinds(log, topic, eventType, major, m)
  {
    TypedHolds(log);
    RawHolds(log);
    var key := RouteKey(topic, eventType, major);
    if topic in RawOf(log) then RawMatch(RawOf(log)[topic])
    else if key in TypedOf(log) then TypedMatch(TypedOf(log)[key])
    else NoMatch
  }

  /** The registry's maps. `accepted` is the log of the registrations it took. */
  class Registry {
    var typed: map<RouteKey, Handler>
    var raw: map<string, Handler>
    var topics: set<string>
    ghost var accepted: seq<Registration>

    ghost predicate Valid()
      reads this
    {
      && Exclusive(accepted)
      && typed == TypedOf(accepted) && raw == RawOf(accepted) && topics == TopicsOf(accepted)
    }

    constructor ()
      ensures Valid() && accepted == []
    {
      typed, raw, topics, accepted := map[], map[], {}, [];
    }

    /** Refused exactly when the topic has a raw handler or the route is taken; a refusal changes nothing. */
    method AddTyped(topic: string, eventType: string, major: int, fn: Handler) returns (err: Option<RegistryError>)
      requires Valid()
      modifies this
      ensures Valid()
      ensures err == Refusal(old(accepted), Typed(RouteKey(topic, eventType, major), fn))
      ensures accepted == if err.None? then old(accepted) + [Typed(RouteKey(topic, eventType, major), fn)] else old(accepted)
      ensures err.Some? ==> unchanged(this)
    {
      var key := RouteKey(topic, eventType, major);
      TypedRefusal(accepted, key, fn);
      if topic in raw {
        return Some(RawExists);
      }
      if key in typed {
        return Some(RouteExists);
      }
      AcceptKeepsExclusive(accepted, Typed(key, fn));
      MapsAfter(accepted, Typed(key, fn));
      typed := typed[key := fn];
      topics := topics + {topic};
      accepted := accepted + [Typed(key, fn)];
      err := None;
    }

    /** Refused exactly when the topic already has any handler. */
    method AddRaw(topic: string, fn: Handler) returns (err: Option<RegistryError>)
      requires Valid()
      modifies this
      ensures Valid()
      ensures err == Refusal(old(accepted), Raw(topic, fn))
      ensures accepted == if err.None? then old(accepted) + [Raw(topic, fn)] else old(accepted)
      ensures err.Some? ==> unchanged(this)
    {
      RawRefusal(accepted, topic, fn);
      if topic in raw {
        return Some(RawExists);
      }
      var keys := typed.Keys;
      while keys != {}
        invariant keys <= typed.Keys && unchanged(this)
        invariant forall key :: key in typed && key !in keys ==> key.topic != topic
        decreases |keys|
      {
        var key :| key in keys;
        if key.topic == topic {
          return Some(TypedExist);
        }
        keys := keys - {key};
      }
      AcceptKeepsExclusive(accepted, Raw(topic, fn));
      MapsAfter(accepted, Raw(topic, fn));
      raw := raw[topic := fn];
      topics := topics + {topic};
      accepted := accepted + [Raw(topic, fn)];
      err := None;
    }

    /** The match of a scan over the accepted registrations. */
    method Lookup(topic: string, eventType: string, major: int) returns (m: Match)
      requires Valid()
      ensures ScanFinds(accepted, topic, eventType, major, m) && m == Found(accepted, topic, eventType, major)
    {
      TypedHolds(accepted);
      RawHolds(accepted);
      if topic in raw {
        return RawMatch(raw[topic]);
      }
      var key := RouteKey(topic, eventType, major);
      if key in typed {
        return TypedMatch(typed[key]);
      }
      return NoMatch;
    }

    /** Every topic with a registration, once. */
    method TopicList() returns (list: seq<string>)
      requires Valid()
      ensures forall topic :: topic in list <==> exists r :: r in accepted && r.Topic() == topic
      ensures forall i, j :: 0 <= i < j < |list| ==> list[i] != list[j]
    {
      list := [];
      var rest := topics;
      while rest != {}
        invariant rest <= topics
        invariant forall topic :: topic in list <==> topic in topics && topic !in rest
        invariant forall i, j :: 0 <= i < j < |list| ==> list[i] != list[j]
        decreases |rest|
      {
        var topic :| topic in rest;
        list := list + [topic];
        rest := rest - {topic};
      }
    }

    method IsEmpty() returns (empty: bool)
      requires Valid()
      ensures empty <==> accepted == []
    {
      empty := |topics| == 0;
      if accepted != [] {
        assert accepted[0] in accepted && accepted[0].Topic() in topics;
      }
    }
  }
}
