/**
 * Projection subscriptions of package `cqrs` (subscriber.go): the table of
 * aggregate types to registries a projection fills, the accept/drop rule of
 * the delivery callback, and the construction of the `es.Subscription` that
 * is handed to the event-store subscriber.
 */
module CqrsSubscriber {
  import opened Wrappers
  import opened Cqrs
  import Es
  import opened CqrsRegistry

  /** The table after `Assign(aggregate, events...)`: the aggregate's registry extended by the events. */
  function Assigned(t: map<string, map<string, Value>>, aggregate: string, events: seq<Value>): map<string, map<string, Value>>
  {
    t[aggregate := RegisterAll(if aggregate in t then t[aggregate] else map[], events)]
  }

  /** The table after a sequence of `Assign` calls, in order. */
  function AssignAll(t: map<string, map<string, Value>>, assignments: seq<(string, seq<Value>)>): map<string, map<string, Value>>
  {
    if assignments == [] then t
    else
      var last := assignments[|assignments| - 1];
      Assigned(AssignAll(t, assignments[..|assignments| - 1]), last.0, last.1)
  }

  /** `Has`: the aggregate type has a registry, and the event type is registered in it. */
  predicate Admits(t: map<string, map<string, Value>>, aggregateType: string, eventType: string)
  {
    aggregateType in t && eventType in t[aggregateType]
  }

  /** The metadata the delivery callback hands on: decoded when non-empty; a decode failure leaves it nil. */
  function DeliveredMeta(ser: Serializer, meta: Bytes): Meta
  {
    if |meta| > 0 && ser.unmarshalMeta(meta).Ok? then ser.unmarshalMeta(meta).value else map[]
  }

  /**
   * The delivery callback's decision: drop (None) when the aggregate type
   * has no registry, when the event type is not registered in it, or when
   * the payload does not decode into the registered prototype; otherwise the
   * decoded event, with the stored type, version and time.
   */
  function Accept(t: map<string, map<string, Value>>, ser: Serializer, a: Es.Aggregate, e: Es.Event): Option<Event>
  {
    if a.typ !in t then None
    else if e.typ !in t[a.typ] then None
    else
      var v := ser.unmarshal(e.data, t[a.typ][e.typ]);
      if v.Err? then None
      else Some(Event(a, v.value, DeliveredMeta(ser, e.meta), e.typ, e.version, e.createdAt))
  }

  /** The routes built for the first `j` aggregates of `aggs`, the k-th with event names `names[k]`. */
  function RoutesFor(aggs: seq<string>, names: seq<seq<string>>, j: nat): seq<string>
    requires |aggs| == |names| && j <= |aggs|
  {
    if j == 0 then [] else RoutesFor(aggs, names, j - 1) + Es.EventRoutes(aggs[j - 1], names[j - 1])
  }

  /** `ns` lists the keys of `m`, each exactly once. */
  ghost predicate Enumerates<V>(ns: seq<string>, m: map<string, V>)
  {
    NoDup(ns) && forall x :: x in ns <==> x in m
  }

  /** The match table built for the first `j` aggregates of `aggs`, the k-th with event names `names[k]`. */
  function Tables(aggs: seq<string>, names: seq<seq<string>>, j: nat): map<string, map<string, bool>>
    requires |aggs| == |names| && j <= |aggs|
  {
    if j == 0 then map[] else Tables(aggs, names, j - 1)[aggs[j - 1] := Es.MatchSet(names[j - 1])]
  }

  // ---------------------------------------------------------------- lemmas

  /**
   * `Assign` on an unseen aggregate creates a registry of exactly the
   * derived names of the events, each holding its first carrier; with no
   * events it is empty. Other aggregates keep their registries.
   */
  lemma AssignNew(t: map<string, map<string, Value>>, aggregate: string, events: seq<Value>)
    requires aggregate !in t
    ensures Assigned(t, aggregate, events).Keys == t.Keys + {aggregate}
    ensures Assigned(t, aggregate, events)[aggregate].Keys == NamesOf(events)
    ensures forall n :: n in NamesOf(events) ==> Assigned(t, aggregate, events)[aggregate][n] == events[FirstNamed(events, n)]
    ensures forall k :: k in t ==> Assigned(t, aggregate, events)[k] == t[k]
  {
    RegisterAllKeys(map[], events);
    forall n | n in NamesOf(events)
      ensures RegisterAll(map[], events)[n] == events[FirstNamed(events, n)]
    {
      RegisterAllFirstWins(map[], events, n);
    }
  }

  /** `Assign` on a known aggregate only adds names not yet present and keeps every existing entry. */
  lemma AssignKnown(t: map<string, map<string, Value>>, aggregate: string, events: seq<Value>)
    requires aggregate in t
    ensures Assigned(t, aggregate, events)[aggregate].Keys == t[aggregate].Keys + NamesOf(events)
    ensures forall n :: n in t[aggregate] ==> Assigned(t, aggregate, events)[aggregate][n] == t[aggregate][n]
    ensures forall k :: k in t && k != aggregate ==> Assigned(t, aggregate, events)[k] == t[k]
  {
    RegisterAllKeys(t[aggregate], events);
  }

  /** After `Assign`, `Has` admits exactly the names known before plus the events' derived names. */
  lemma HasAfterAssign(t: map<string, map<string, Value>>, aggregate: string, events: seq<Value>, eventType: string)
    ensures Admits(Assigned(t, aggregate, events), aggregate, eventType) <==>
      Admits(t, aggregate, eventType) || eventType in NamesOf(events)
  {
    RegisterAllKeys(if aggregate in t then t[aggregate] else map[], events);
  }

  /** An aggregate assigned with no events (and unseen before) matches nothing through `Has`. */
  lemma NoEventsMatchNothing(t: map<string, map<string, Value>>, aggregate: string, eventType: string)
    requires aggregate !in t
    ensures !Admits(Assigned(t, aggregate, []), aggregate, eventType)
  {
    HasAfterAssign(t, aggregate, [], eventType);
  }

  /**
   * The drop rule: an event reaches the projection exactly when `Has`
   * admits it and its payload decodes; a metadata decode failure never
   * drops it.
   */
  lemma AcceptRule(t: map<string, map<string, Value>>, ser: Serializer, a: Es.Aggregate, e: Es.Event)
    ensures Accept(t, ser, a, e).Some? <==>
      Admits(t, a.typ, e.typ) && ser.unmarshal(e.data, t[a.typ][e.typ]).Ok?
    ensures Accept(t, ser, a, e).Some? ==>
      var h := Accept(t, ser, a, e).value;
      h.aggregate == a && h.typ == e.typ && h.version == e.version && h.createdAt == e.createdAt &&
      h.data == ser.unmarshal(e.data, t[a.typ][e.typ]).value &&
      h.meta == (if |e.meta| == 0 || ser.unmarshalMeta(e.meta).Err? then map[] else ser.unmarshalMeta(e.meta).value)
  {
  }

  /** With distinct aggregates, the table has exactly their entries, each the set of its names. */
  lemma {:induction false} TablesShape(aggs: seq<string>, names: seq<seq<string>>, j: nat)
    requires |aggs| == |names| && j <= |aggs| && NoDup(aggs)
    ensures forall k :: k in Tables(aggs, names, j) <==> k in aggs[..j]
    ensures forall i :: 0 <= i < j ==> Tables(aggs, names, j)[aggs[i]] == Es.MatchSet(names[i])
  {
    if j > 0 {
      TablesShape(aggs, names, j - 1);
      assert aggs[..j] == aggs[..j - 1] + [aggs[j - 1]];
    }
  }

  /**
   * The routes hold `*.agg.n` for each name `n` of each aggregate, and the
   * wildcard `*.agg.*` for an aggregate with no names.
   */
  lemma {:induction false} RoutesForCover(aggs: seq<string>, names: seq<seq<string>>, j: nat, k: nat)
    requires |aggs| == |names| && k < j <= |aggs|
    ensures forall n :: n in names[k] ==> Es.Route("*", aggs[k], n) in RoutesFor(aggs, names, j)
    ensures names[k] == [] ==> Es.Route("*", aggs[k], "*") in RoutesFor(aggs, names, j)
  {
    if k < j - 1 {
      RoutesForCover(aggs, names, j - 1, k);
    } else {
      var r := Es.EventRoutes(aggs[k], names[k]);
      assert RoutesFor(aggs, names, j) == RoutesFor(aggs, names, j - 1) + r;
      forall n | n in names[k]
        ensures Es.Route("*", aggs[k], n) in RoutesFor(aggs, names, j)
      {
        var i :| 0 <= i < |names[k]| && names[k][i] == n;
        assert r[i] == Es.Route("*", aggs[k], n);
      }
      if names[k] == [] {
        assert r[0] == Es.Route("*", aggs[k], "*");
      }
    }
  }

  // ---------------------------------------------------------------- the imperative parts

  /** `Subscriptions`: aggregate type to registry, filled in place by a projection. */
  class Subscriptions {
    var table: map<string, map<string, Value>>

    /** `Subscriptions{}`. */
    constructor ()
      ensures table == map[]
    {
      table := map[];
    }

    /**
     * `Assign(aggregate, events...)`: a fresh registry of the events for an
     * unseen aggregate, otherwise each event registered into the existing
     * one in order; never fails.
     */
    method Assign(aggregate: string, events: seq<Value>) returns (err: Option<string>)
      modifies this
      ensures err == None
      ensures table == Assigned(old(table), aggregate, events)
    {
      if aggregate !in table {
        var created := new Registry.New(events);
        table := table[aggregate := created.entries];
        return None;
      }
      // the registry stored under `aggregate`, updated in place
      var r := new Registry.New([]);
      r.entries := table[aggregate];
      var i := 0;
      while i < |events|
        invariant 0 <= i <= |events|
        invariant r.entries == RegisterAll(old(table)[aggregate], events[..i])
        invariant table == old(table)
      {
        assert events[..i + 1][..i] == events[..i];
        var e := r.Register(events[i], "");
        if e.Some? {
          assert false; // the error return is unreachable: Register never fails
        }
        i := i + 1;
      }
      assert events[..i] == events;
      table := table[aggregate := r.entries];
      err := None;
    }

    /**
     * `Has(e)`: whether the event's aggregate type and event type are
     * subscribed. An aggregate type without an entry is never admitted;
     * otherwise the answer is whether that entry's registry knows the type.
     */
    predicate Has(e: Event): (b: bool)
      reads this
      ensures e.aggregate.typ !in table ==> !b
      ensures e.aggregate.typ in table ==> (b <==> e.typ in table[e.aggregate.typ].Keys)
    {
      Admits(table, e.aggregate.typ, e.typ)
    }
  }

  /**
   * The delivery callback built by `Subscribe`: hands the event to the
   * projection's `Handle` when `Accept` keeps it, and drops it otherwise.
   * The `Handle` error is discarded.
   */
  method Deliver(ss: Subscriptions, ser: Serializer, h: EventHandler, a: Es.Aggregate, e: Es.Event)
    modifies h
    ensures h.received == old(h.received) + match Accept(ss.table, ser, a, e) case Some(x) => [x] case None => []
  {
    if a.typ !in ss.table {
      return;
    }
    var events := ss.table[a.typ];
    if e.typ !in events {
      return; // "not registered"
    }
    var v := ser.unmarshal(e.data, events[e.typ]);
    if v.Err? {
      return;
    }
    var m: Meta := map[];
    if |e.meta| > 0 {
      var mm := ser.unmarshalMeta(e.meta);
      if mm.Ok? {
        m := mm.value;
      }
    }
    var ignored := h.Handle(Event(a, v.value, m, e.typ, e.version, e.createdAt));
  }

  /**
   * A consumer's `Projection`: the value `name` derives its name from, and
   * the `Assign` calls its `Subscribe(ss)` makes, in order.
   */
  datatype Projection = Projection(self: Value, assignments: seq<(string, seq<Value>)>)

  /** The projection's `Subscribe(ss)` on a fresh table: its `Assign` calls, in order. */
  method Fill(h: Projection) returns (table: map<string, map<string, Value>>)
    ensures table == AssignAll(map[], h.assignments)
  {
    var ss := new Subscriptions();
    var i := 0;
    while i < |h.assignments|
      invariant 0 <= i <= |h.assignments|
      invariant ss.table == AssignAll(map[], h.assignments[..i])
    {
      assert h.assignments[..i + 1][..i] == h.assignments[..i];
      var ignored := ss.Assign(h.assignments[i].0, h.assignments[i].1);
      i := i + 1;
    }
    assert h.assignments[..i] == h.assignments;
    table := ss.table;
  }

  /** `Names()` of the registry of each aggregate of `keys`, in order. */
  method NamesFor(table: map<string, map<string, Value>>, keys: seq<string>) returns (names: seq<seq<string>>)
    requires forall k :: k in keys ==> k in table
    ensures |names| == |keys|
    ensures forall t :: 0 <= t < |keys| ==> Enumerates(names[t], table[keys[t]])
  {
    names := [];
    var j := 0;
    while j < |keys|
      invariant 0 <= j <= |keys| && |names| == j
      invariant forall t :: 0 <= t < j ==> Enumerates(names[t], table[keys[t]])
    {
      var ns := EnumerateKeys(table[keys[j]]);
      names := names + [ns];
      j := j + 1;
    }
  }

  /**
   * The route-building loop of `Subscribe`: over the aggregates `keys`,
   * name the subscription `n` and add each aggregate with the event names
   * `names` of its registry.
   */
  method Assemble(keys: seq<string>, names: seq<seq<string>>, n: string, handler: Es.HandlerRef)
    returns (sub: Es.Sub)
    requires |names| == |keys|
    ensures sub.name == (if |keys| == 0 then "" else n)
    ensures sub.routes == RoutesFor(keys, names, |keys|)
    ensures sub.subscriptions == Tables(keys, names, |keys|)
    ensures sub.handler == handler
  {
    var z := new Es.Subscription(handler);
    AssembleInto(z, keys, names, n);
    sub := z.Value();
  }

  /** `Assemble`'s loop on a fresh subscription `z`. */
  method AssembleInto(z: Es.Subscription, keys: seq<string>, names: seq<seq<string>>, n: string)
    modifies z
    requires |names| == |keys|
    requires z.name == "" && z.routes == [] && z.subscriptions == map[]
    ensures z.name == (if |keys| == 0 then "" else n)
    ensures z.routes == RoutesFor(keys, names, |keys|)
    ensures z.subscriptions == Tables(keys, names, |keys|)
  {
    assert RoutesFor(keys, names, 0) == [] && Tables(keys, names, 0) == map[];
    for j := 0 to |keys|
      invariant j == 0 ==> z.name == ""
      invariant j > 0 ==> z.name == n
      invariant z.routes == RoutesFor(keys, names, j)
      invariant z.subscriptions == Tables(keys, names, j)
    {
      AssembleStep(z, keys, names, j, n);
    }
  }

  /** One round of `Assemble`'s loop: name the subscription and add the `j`-th aggregate. */
  method AssembleStep(z: Es.Subscription, keys: seq<string>, names: seq<seq<string>>, j: nat, n: string)
    modifies z
    requires |names| == |keys| && j < |keys|
    requires z.routes == RoutesFor(keys, names, j) && z.subscriptions == Tables(keys, names, j)
    ensures z.name == n
    ensures z.routes == RoutesFor(keys, names, j + 1) && z.subscriptions == Tables(keys, names, j + 1)
  {
    var z1 := z.Name(n);
    var z2 := z1.AggregateEvents(keys[j], names[j]);
  }

  /**
   * `Subscribe`'s subscription for a filled table: the aggregates in the
   * table's (unspecified) iteration order `aggs`, each with its registry's
   * names, also in unspecified order. `Names()` changes nothing, so the
   * names are taken before the route-building loop rather than in it.
   */
  method Build(table: map<string, map<string, Value>>, n: string, handler: Es.HandlerRef)
    returns (sub: Es.Sub, aggs: seq<string>, names: seq<seq<string>>)
    ensures Enumerates(aggs, table) && |names| == |aggs|
    ensures forall i :: 0 <= i < |aggs| ==> Enumerates(names[i], table[aggs[i]])
    ensures sub.name == (if table == map[] then "" else n)
    ensures sub.routes == RoutesFor(aggs, names, |aggs|)
    ensures sub.subscriptions == Tables(aggs, names, |aggs|)
    ensures sub.handler == handler
  {
    aggs := EnumerateKeys(table);
    names := NamesFor(table, aggs);
    sub := Assemble(aggs, names, n, handler);
    if table != map[] {
      var k :| k in table;
      assert k in aggs;
    }
  }

  /** `Subscriber`: the event-store subscriber's reply and the serializer. */
  datatype Subscriber = Subscriber(subscriber: Es.SubscriberReply, serializer: Serializer)
  {
    /**
     * `Subscribe(h)`: lets the projection fill a fresh table, builds the
     * subscription named after the projection with every aggregate's
     * routes and match-table entry, taken from its registry's names, and
     * hands it, with the delivery callback `handler`, to the event-store
     * subscriber, whose error it returns.
     */
    method Subscribe(h: Projection, handler: Es.HandlerRef)
      returns (err: Option<string>, sub: Es.Sub, ghost table: map<string, map<string, Value>>,
               aggs: seq<string>, names: seq<seq<string>>)
      ensures table == AssignAll(map[], h.assignments)
      ensures NoDup(aggs) && (forall k :: k in aggs <==> k in table) && |names| == |aggs|
      ensures forall i :: 0 <= i < |aggs| ==>
        NoDup(names[i]) && forall n :: n in names[i] <==> n in table[aggs[i]]
      ensures sub.name == (if table == map[] then "" else Name(h.self))
      ensures sub.routes == RoutesFor(aggs, names, |aggs|)
      ensures forall k :: k in sub.subscriptions <==> k in table
      ensures forall i :: 0 <= i < |aggs| ==> sub.subscriptions[aggs[i]] == Es.MatchSet(names[i])
      ensures sub.handler == handler
      ensures err == subscriber(sub)
    {
      var ss := Fill(h);
      table := ss;
      sub, aggs, names := Build(ss, Name(h.self), handler);
      TablesShape(aggs, names, |aggs|);
      assert aggs[..|aggs|] == aggs;
      err := subscriber(sub);
    }
  }
}
