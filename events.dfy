/** The publish/subscribe event bus (class `EventEmitter`). Its registry is a
    JavaScript `Map` from topic to a `Set` of subscribers; both iterate in
    insertion order, and that order is the order in which `emit` calls the
    subscribers, so the registry is modelled as an ordered map. Subscribers
    are callback identities and a call of a subscriber is recorded as a
    `Delivery` value instead of being run. */
module Events {
  import opened JsValues
  import opened Seqs

  /** The identity of a subscriber callback. */
  type Subscriber = nat

  /** The identity of a RegExp object used as a topic. */
  type PatternId = nat

  /** `RegExp.prototype.test` of each pattern, supplied from outside. */
  type PatternTest = (PatternId, string) -> bool

  /** A topic is an exact event name (the wildcard being the name "*") or a
      RegExp object, which is a key by identity. */
  datatype Topic = Exact(name: string) | Pattern(id: PatternId)

  const Wildcard: Topic := Exact("*")

  /** One call of a subscriber with one argument. */
  datatype Delivery = Delivery(to: Subscriber, payload: Value)

  /** One call of `emit`. */
  datatype Event = Event(name: string, data: Value)

  /** The registry: topics in insertion order, and each topic's subscribers
      in insertion order. */
  datatype TopicMap = TopicMap(order: seq<Topic>, subscribers: map<Topic, seq<Subscriber>>)

  const NoTopics: TopicMap := TopicMap([], map[])

  /** A `Map` has each key once, a `Set` each member once, and the bus never
      keeps a topic whose subscriber set is empty. */
  ghost predicate WellFormed(m: TopicMap) {
    && Distinct(m.order)
    && (forall t :: t in m.subscribers <==> t in m.order)
    && (forall t :: t in m.subscribers ==> m.subscribers[t] != [] && Distinct(m.subscribers[t]))
  }

  /** The registry as the source declares it: `Map<EventName, Set<Subscriber>>`. */
  ghost function View(m: TopicMap): map<Topic, set<Subscriber>> {
    map t | t in m.subscribers :: Elements(m.subscribers[t])
  }

  /** `on(t, cb)`: create the topic if it is missing, then add `cb` to its set. */
  function Subscribe(m: TopicMap, t: Topic, cb: Subscriber): (r: TopicMap)
    ensures t in r.subscribers && cb in r.subscribers[t]
    ensures t in m.subscribers ==> r.order == m.order
    ensures t !in m.subscribers ==> r.order == m.order + [t]
    ensures forall u :: u != t ==> (u in r.subscribers <==> u in m.subscribers)
    ensures forall u :: u != t && u in m.subscribers ==> r.subscribers[u] == m.subscribers[u]
  {
    if t in m.subscribers then
      var subs := m.subscribers[t];
      m.(subscribers := m.subscribers[t := if cb in subs then subs else subs + [cb]])
    else
      TopicMap(m.order + [t], m.subscribers[t := [cb]])
  }

  /** Accepts everything but `x`. */
  function Other<T(==)>(x: T): T -> bool {
    y => y != x
  }

  /** `Set.prototype.delete` on an insertion-ordered set. */
  function Erase<T(==)>(s: seq<T>, x: T): seq<T> {
    Filter(s, Other(x))
  }

  /** `off(t, cb)`: remove `cb` from the topic and drop the topic once its set
      is empty; an unknown topic is left alone. */
  function Unsubscribe(m: TopicMap, t: Topic, cb: Subscriber): (r: TopicMap)
    ensures t in r.subscribers ==> cb !in r.subscribers[t]
    ensures |r.order| <= |m.order|
    ensures forall u :: u != t ==> (u in r.subscribers <==> u in m.subscribers)
    ensures forall u :: u != t && u in m.subscribers ==> r.subscribers[u] == m.subscribers[u]
  {
    if t !in m.subscribers then m
    else
      var rest := Erase(m.subscribers[t], cb);
      assert cb !in rest by { FilterMembers(m.subscribers[t], Other(cb), cb); }
      if rest == [] then TopicMap(Erase(m.order, t), m.subscribers - {t})
      else m.(subscribers := m.subscribers[t := rest])
  }

  lemma {:induction false} EraseMembers<T>(s: seq<T>, x: T)
    ensures Elements(Erase(s, x)) == Elements(s) - {x}
    ensures Distinct(s) ==> Distinct(Erase(s, x))
  {
    forall y ensures y in Elements(Erase(s, x)) <==> y in Elements(s) - {x} {
      FilterMembers(s, Other(x), y);
      assert Other(x)(y) == (y != x);
    }
    assert Elements(Erase(s, x)) == Elements(s) - {x};
    if Distinct(s) {
      FilterDistinct(s, Other(x));
    }
  }

  /** `on` keeps the registry well formed and adds `cb` to the topic's set,
      creating the topic when it is missing; no other topic changes. */
  lemma {:induction false} SubscribeSpec(m: TopicMap, t: Topic, cb: Subscriber)
    requires WellFormed(m)
    ensures WellFormed(Subscribe(m, t, cb))
    ensures View(Subscribe(m, t, cb)) == View(m)[t := (if t in View(m) then View(m)[t] else {}) + {cb}]
  {
    var m' := Subscribe(m, t, cb);
    if t in m.subscribers {
      var subs := m.subscribers[t];
      if cb !in subs {
        var subs' := subs + [cb];
        assert Distinct(subs') by {
          forall i, j | 0 <= i < j < |subs'| ensures subs'[i] != subs'[j] {
            if j == |subs| { assert subs'[i] == subs[i]; }
          }
        }
        assert Elements(subs') == Elements(subs) + {cb};
      }
    } else {
      var order' := m.order + [t];
      assert Distinct(order') by {
        forall i, j | 0 <= i < j < |order'| ensures order'[i] != order'[j] {
          if j == |m.order| { assert order'[i] == m.order[i]; }
        }
      }
      assert Elements([cb]) == {cb};
    }
    var expected := View(m)[t := (if t in View(m) then View(m)[t] else {}) + {cb}];
    assert View(m').Keys == expected.Keys;
    forall u | u in View(m') ensures View(m')[u] == expected[u] {
      if u == t {
        if t in m.subscribers && cb in m.subscribers[t] {
          assert View(m')[u] == Elements(m.subscribers[t]);
        }
      }
    }
  }

  /** The two steps of `on`, creating an empty set for a missing topic and
      then adding `cb` to it, together make `Subscribe`. */
  lemma CreateThenAdd(m: TopicMap, t: Topic, cb: Subscriber)
    ensures
      var created := if t in m.subscribers then m else TopicMap(m.order + [t], m.subscribers[t := []]);
      var subs := created.subscribers[t];
      (if cb in subs then created else created.(subscribers := created.subscribers[t := subs + [cb]]))
        == Subscribe(m, t, cb)
  {
    if t !in m.subscribers {
      assert [] + [cb] == [cb];
      assert m.subscribers[t := []][t := [cb]] == m.subscribers[t := [cb]];
    } else if cb in m.subscribers[t] {
      assert m.subscribers[t := m.subscribers[t]] == m.subscribers;
    }
  }

  /** Registering the same callback twice for the same topic is a no-op. */
  lemma SubscribeIdempotent(m: TopicMap, t: Topic, cb: Subscriber)
    ensures Subscribe(Subscribe(m, t, cb), t, cb) == Subscribe(m, t, cb)
  {
  }

  /** `off` keeps the registry well formed and removes `cb` from the topic's
      set, deleting the topic when that leaves its set empty; an unknown
      topic and every other topic are left alone. */
  lemma {:induction false} UnsubscribeSpec(m: TopicMap, t: Topic, cb: Subscriber)
    requires WellFormed(m)
    ensures WellFormed(Unsubscribe(m, t, cb))
    ensures View(Unsubscribe(m, t, cb)) ==
      if t !in View(m) then View(m)
      else if View(m)[t] - {cb} == {} then View(m) - {t}
      else View(m)[t := View(m)[t] - {cb}]
  {
    if t in m.subscribers {
      var subs := m.subscribers[t];
      var rest := Erase(subs, cb);
      EraseMembers(subs, cb);
      assert rest == [] <==> Elements(subs) - {cb} == {} by {
        if rest != [] { assert rest[0] in Elements(rest); }
      }
      if rest == [] {
        EraseMembers(m.order, t);
        var m' := Unsubscribe(m, t, cb);
        forall u ensures u in m'.subscribers <==> u in m'.order {
          assert u in m'.order <==> u in Elements(m'.order);
        }
        assert View(m').Keys == View(m).Keys - {t};
      } else {
        assert View(Unsubscribe(m, t, cb)).Keys == View(m).Keys;
      }
    }
  }

  /** Removing a callback just registered for a topic it was not yet
      subscribed to restores the registry exactly, insertion order
      included. */
  lemma {:induction false} UnsubscribeUndoesSubscribe(m: TopicMap, t: Topic, cb: Subscriber)
    requires WellFormed(m)
    requires t in m.subscribers ==> cb !in m.subscribers[t]
    ensures Unsubscribe(Subscribe(m, t, cb), t, cb) == m
  {
    var added := Subscribe(m, t, cb);
    if t in m.subscribers {
      var subs := m.subscribers[t];
      assert added == m.(subscribers := m.subscribers[t := subs + [cb]]);
      FilterConcat(subs, [cb], Other(cb));
      FilterKeepsAll(subs, Other(cb));
      assert Filter([cb], Other(cb)) == [];
      assert Erase(subs + [cb], cb) == subs;
      assert m.subscribers[t := subs] == m.subscribers;
    } else {
      assert added == TopicMap(m.order + [t], m.subscribers[t := [cb]]);
      assert Erase([cb], cb) == [];
      assert Filter([t], Other(t)) == [];
      FilterConcat(m.order, [t], Other(t));
      FilterKeepsAll(m.order, Other(t));
      assert Erase(m.order + [t], t) == m.order;
      assert m.subscribers[t := [cb]] - {t} == m.subscribers;
    }
  }

  /** A subscriber of topic `t` is called on an event named `name`: the
      topic is that exact name, or a RegExp whose test accepts it. */
  predicate Routes(t: Topic, name: string, matches: PatternTest) {
    match t
    case Exact(s) => s == name
    case Pattern(id) => matches(id, name)
  }

  /** The wildcard envelope `{eventName, data}`. */
  function Envelope(name: string, data: Value): Value {
    Obj(map["eventName" := Str(name), "data" := data])
  }

  /** `subscribers.forEach(cb => cb(v))`, as data. */
  function Broadcast(subs: seq<Subscriber>, v: Value): seq<Delivery> {
    seq(|subs|, i requires 0 <= i < |subs| => Delivery(subs[i], v))
  }

  /** What one registry entry contributes to an emit: the envelope to every
      subscriber of the wildcard, then the raw data to every subscriber of a
      topic that routes the name. */
  function TopicDeliveries(t: Topic, subs: seq<Subscriber>, name: string, data: Value, matches: PatternTest): seq<Delivery> {
    (if t == Wildcard then Broadcast(subs, Envelope(name, data)) else [])
    + (if Routes(t, name, matches) then Broadcast(subs, data) else [])
  }

  /** The deliveries of the registry entries `keys`, visited in order. */
  function Fanout(m: TopicMap, keys: seq<Topic>, name: string, data: Value, matches: PatternTest): seq<Delivery>
    requires forall t :: t in keys ==> t in m.subscribers
  {
    if keys == [] then []
    else
      var last := keys[|keys| - 1];
      Fanout(m, keys[..|keys| - 1], name, data, matches)
      + TopicDeliveries(last, m.subscribers[last], name, data, matches)
  }

  /** Every subscriber call made by `emit(name, data)`, in call order. */
  function Dispatch(m: TopicMap, name: string, data: Value, matches: PatternTest): (r: seq<Delivery>)
    requires WellFormed(m)
    ensures forall s, v :: Delivery(s, v) in r <==>
      exists t :: t in m.order && s in m.subscribers[t] && Receives(t, name, data, v, matches)
  {
    var r := Fanout(m, m.order, name, data, matches);
    assert forall s, v :: Delivery(s, v) in r <==>
      exists t :: t in m.order && s in m.subscribers[t] && Receives(t, name, data, v, matches) by {
      forall s, v ensures Delivery(s, v) in r <==>
        exists t :: t in m.order && s in m.subscribers[t] && Receives(t, name, data, v, matches) {
        FanoutMembers(m, m.order, name, data, matches, s, v);
      }
    }
    r
  }

  /** What a subscriber of topic `t` receives from an emit. */
  predicate Receives(t: Topic, name: string, data: Value, v: Value, matches: PatternTest) {
    || (t == Wildcard && v == Envelope(name, data))
    || (Routes(t, name, matches) && v == data)
  }

  lemma BroadcastMembers(subs: seq<Subscriber>, w: Value, s: Subscriber, v: Value)
    ensures Delivery(s, v) in Broadcast(subs, w) <==> s in subs && v == w
  {
    if s in subs && v == w {
      var i :| 0 <= i < |subs| && subs[i] == s;
      assert Broadcast(subs, w)[i] == Delivery(s, v);
    }
  }

  lemma TopicDeliveriesMembers(t: Topic, subs: seq<Subscriber>, name: string, data: Value,
                               matches: PatternTest, s: Subscriber, v: Value)
    ensures Delivery(s, v) in TopicDeliveries(t, subs, name, data, matches) <==>
      s in subs && Receives(t, name, data, v, matches)
  {
    BroadcastMembers(subs, Envelope(name, data), s, v);
    BroadcastMembers(subs, data, s, v);
  }

  /** A call happens exactly when the subscriber belongs to a visited topic
      that hands it that argument: the envelope from the wildcard, the raw
      data from an exact or matching pattern topic. */
  lemma {:induction false} FanoutMembers(m: TopicMap, keys: seq<Topic>, name: string, data: Value,
                                         matches: PatternTest, s: Subscriber, v: Value)
    requires forall t :: t in keys ==> t in m.subscribers
    ensures Delivery(s, v) in Fanout(m, keys, name, data, matches) <==>
      exists t :: t in keys && s in m.subscribers[t] && Receives(t, name, data, v, matches)
  {
    if keys != [] {
      var init, last := keys[..|keys| - 1], keys[|keys| - 1];
      assert keys == init + [last];
      assert forall t :: t in init ==> t in keys;
      FanoutMembers(m, init, name, data, matches, s, v);
      TopicDeliveriesMembers(last, m.subscribers[last], name, data, matches, s, v);
      if exists t :: t in keys && s in m.subscribers[t] && Receives(t, name, data, v, matches) {
        var t :| t in keys && s in m.subscribers[t] && Receives(t, name, data, v, matches);
        if t != last { assert t in init; }
      }
    }
  }

  /** After `on(Exact(name), cb)` the next `emit(name, data)` calls `cb`
      with `data`. */
  lemma SubscriberIsCalled(m: TopicMap, name: string, cb: Subscriber, data: Value, matches: PatternTest)
    requires WellFormed(m)
    ensures Delivery(cb, data) in Dispatch(Subscribe(m, Exact(name), cb), name, data, matches)
  {
    var m' := Subscribe(m, Exact(name), cb);
    SubscribeSpec(m, Exact(name), cb);
    assert cb in Elements(m'.subscribers[Exact(name)]) by {
      assert View(m')[Exact(name)] == Elements(m'.subscribers[Exact(name)]);
    }
    assert Exact(name) in m'.order;
    assert Receives(Exact(name), name, data, data, matches);
    FanoutMembers(m', m'.order, name, data, matches, cb, data);
  }

  /** After `off(t, cb)` every call `cb` still gets from an emit comes from
      some other topic it is subscribed to. */
  lemma UnsubscribedHearsOthers(m: TopicMap, t: Topic, cb: Subscriber, name: string, data: Value,
                                matches: PatternTest, v: Value)
    requires WellFormed(m)
    ensures WellFormed(Unsubscribe(m, t, cb))
    ensures Delivery(cb, v) in Dispatch(Unsubscribe(m, t, cb), name, data, matches) ==>
      exists u :: u != t && u in m.subscribers && cb in m.subscribers[u] && Receives(u, name, data, v, matches)
  {
    var m' := Unsubscribe(m, t, cb);
    UnsubscribeSpec(m, t, cb);
    if Delivery(cb, v) in Dispatch(m', name, data, matches) {
      FanoutMembers(m', m'.order, name, data, matches, cb, v);
      var u :| u in m'.order && cb in m'.subscribers[u] && Receives(u, name, data, v, matches);
      assert cb in View(m')[u];
      assert u != t;
      assert u in View(m) && cb in View(m)[u];
    }
  }

  /** An event that no topic routes and nobody listens to with the wildcard
      reaches nobody, and raises no error. */
  lemma {:induction false} FanoutSilent(m: TopicMap, keys: seq<Topic>, name: string, data: Value, matches: PatternTest)
    requires forall t :: t in keys ==> t in m.subscribers
    requires forall t :: t in keys ==> t != Wildcard && !Routes(t, name, matches)
    ensures Fanout(m, keys, name, data, matches) == []
  {
    if keys != [] {
      var init := keys[..|keys| - 1];
      assert forall t :: t in init ==> t in keys;
      FanoutSilent(m, init, name, data, matches);
    }
  }

  /** Visiting one more registry entry appends its deliveries. */
  lemma FanoutStep(m: TopicMap, keys: seq<Topic>, i: nat, name: string, data: Value, matches: PatternTest)
    requires forall t :: t in keys ==> t in m.subscribers
    requires i < |keys|
    ensures forall t :: t in keys[..i] ==> t in m.subscribers
    ensures forall t :: t in keys[..i + 1] ==> t in m.subscribers
    ensures Fanout(m, keys[..i + 1], name, data, matches) ==
      Fanout(m, keys[..i], name, data, matches) + TopicDeliveries(keys[i], m.subscribers[keys[i]], name, data, matches)
  {
    assert forall t :: t in keys[..i + 1] ==> t in keys;
    assert keys[..i + 1][..i] == keys[..i];
  }

  /** The wildcard's subscribers get the envelope on every event, and the
      raw data as well only when the event is itself named "*". */
  lemma WildcardDeliveries(subs: seq<Subscriber>, name: string, data: Value, matches: PatternTest)
    ensures TopicDeliveries(Wildcard, subs, name, data, matches) ==
      Broadcast(subs, Envelope(name, data)) + (if name == "*" then Broadcast(subs, data) else [])
  {
  }

  /** The payload of the handler `trigger(name, context)` returns, called
      with `event` (undefined when omitted): `{...(event || {}), ...(context || {})}`
      after `event` has defaulted to `{}`. */
  function TriggerPayload(event: Value, context: Value): (r: Value)
    ensures r.Obj?
    ensures r.fields.Keys == Spread(event).Keys + Spread(context).Keys
    ensures forall k :: k in Spread(context) ==> r.fields[k] == Spread(context)[k]
    ensures forall k :: k in Spread(event) && k !in Spread(context) ==> r.fields[k] == Spread(event)[k]
  {
    var ev := if event.Undefined? then EmptyObject else event;
    SpreadOrEmpty(ev);
    SpreadOrEmpty(context);
    Obj(Spread(OrEmpty(ev)) + Spread(OrEmpty(context)))
  }

  /** With no call-time argument the payload is the context's properties
      alone, and with no context it is the argument's. */
  lemma TriggerDefaults(event: Value, context: Value)
    ensures TriggerPayload(Undefined, context) == Obj(Spread(context))
    ensures TriggerPayload(event, Undefined) == Obj(Spread(event))
  {
  }

  /** `forEach` over one subscriber set, calling each with `v`. */
  method Notify(subs: seq<Subscriber>, v: Value) returns (ds: seq<Delivery>)
    ensures ds == Broadcast(subs, v)
  {
    ds := [];
    for i := 0 to |subs|
      invariant ds == Broadcast(subs[..i], v)
    {
      ds := ds + [Delivery(subs[i], v)];
    }
    assert subs[..|subs|] == subs;
  }

  /** The `_events.forEach` loop of `emit`: visit each registry entry in
      insertion order and collect the calls it makes. */
  method VisitRegistry(registry: TopicMap, name: string, data: Value, matches: PatternTest)
    returns (ds: seq<Delivery>)
    requires forall t :: t in registry.order ==> t in registry.subscribers
    ensures ds == Fanout(registry, registry.order, name, data, matches)
  {
    ds := [];
    var i := 0;
    while i < |registry.order|
      invariant 0 <= i <= |registry.order|
      invariant forall t :: t in registry.order[..i] ==> t in registry.subscribers
      invariant ds == Fanout(registry, registry.order[..i], name, data, matches)
    {
      FanoutStep(registry, registry.order, i, name, data, matches);
      var t := registry.order[i];
      var subs := registry.subscribers[t];
      var step := [];
      if t == Wildcard {
        var wrapped := Notify(subs, Envelope(name, data));
        step := step + wrapped;
      }
      if Routes(t, name, matches) {
        var raw := Notify(subs, data);
        step := step + raw;
      }
      assert step == TopicDeliveries(t, subs, name, data, matches);
      ds := ds + step;
      i := i + 1;
    }
    assert registry.order[..i] == registry.order;
  }

  class EventEmitter {
    /** `_events` */
    var topics: TopicMap
    /** Every `emit` call so far, oldest first. */
    ghost var published: seq<Event>
    /** The RegExp topics' `test`. */
    const matches: PatternTest

    ghost predicate Valid()
      reads this`topics
    {
      WellFormed(topics)
    }

    constructor (matches: PatternTest)
      ensures Valid()
      ensures topics == NoTopics && published == [] && this.matches == matches
    {
      topics := NoTopics;
      published := [];
      this.matches := matches;
    }

    /** `on`: subscribe `cb` to `t`. */
    method On(t: Topic, cb: Subscriber)
      requires Valid()
      modifies this`topics
      ensures Valid()
      ensures topics == Subscribe(old(topics), t, cb)
      ensures View(topics) == old(View(topics))[t := (if t in old(View(topics)) then old(View(topics))[t] else {}) + {cb}]
    {
      var m := topics;
      SubscribeSpec(m, t, cb);
      CreateThenAdd(m, t, cb);
      var created := m;
      if t !in m.subscribers {
        created := TopicMap(m.order + [t], m.subscribers[t := []]);
      }
      var subs := created.subscribers[t];
      if cb !in subs {
        created := created.(subscribers := created.subscribers[t := subs + [cb]]);
      }
      topics := created;
    }

    /** `off`: unsubscribe `cb` from `t`. */
    method Off(t: Topic, cb: Subscriber)
      requires Valid()
      modifies this`topics
      ensures Valid()
      ensures topics == Unsubscribe(old(topics), t, cb)
      ensures View(topics) ==
        if t !in old(View(topics)) then old(View(topics))
        else if old(View(topics))[t] - {cb} == {} then old(View(topics)) - {t}
        else old(View(topics))[t := old(View(topics))[t] - {cb}]
    {
      UnsubscribeSpec(topics, t, cb);
      if t in topics.subscribers {
        var rest := Erase(topics.subscribers[t], cb);
        if rest == [] {
          topics := TopicMap(Erase(topics.order, t), topics.subscribers - {t});
        } else {
          topics := topics.(subscribers := topics.subscribers[t := rest]);
        }
      }
    }

    /** `onAll`: subscribe `cb` to the wildcard. */
    method OnAll(cb: Subscriber)
      requires Valid()
      modifies this`topics
      ensures Valid()
      ensures topics == Subscribe(old(topics), Wildcard, cb)
    {
      On(Wildcard, cb);
    }

    /** `offAll`: forget every subscription. */
    method OffAll()
      modifies this`topics
      ensures Valid()
      ensures topics == NoTopics && View(topics) == map[]
    {
      topics := NoTopics;
    }

    /** `emit(name, data)`: visit the registry in insertion order and call
      the subscribers, without changing the registry. */
    method Emit(name: string, data: Value) returns (ds: seq<Delivery>)
      requires Valid()
      modifies this`published
      ensures ds == Dispatch(topics, name, data, matches)
      ensures published == old(published) + [Event(name, data)]
    {
      ds := VisitRegistry(topics, name, data, matches);
      published := published + [Event(name, data)];
    }

    /** `trigger(name, context)` followed by a call of the handler it returns
      with `event`: emit `name` with the event's properties overridden by
      the context's. */
    method Trigger(name: string, context: Value, event: Value) returns (ds: seq<Delivery>)
      requires Valid()
      modifies this`published
      ensures ds == Dispatch(topics, name, TriggerPayload(event, context), matches)
      ensures published == old(published) + [Event(name, TriggerPayload(event, context))]
    {
      ds := Emit(name, TriggerPayload(event, context));
    }
  }
}
