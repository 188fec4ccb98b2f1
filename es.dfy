/**
 * The event-store vocabulary of package `es` (es.go): aggregates, stored
 * events, batches, the storage and pub/sub boundaries, topic routes and the
 * subscription builder.
 */
module Es {
  import opened Wrappers

  /** Opaque payload and metadata bytes. */
  type Bytes = seq<bv8>

  /** A creation instant; clocks are outside the model. */
  type Time = int

  /** Identity of one event-sourced entity. */
  datatype Aggregate = Aggregate(id: string, typ: string)

  /** A stored event: its version is the per-aggregate sequence number. */
  datatype Event = Event(data: Bytes, meta: Bytes, typ: string, version: nat, createdAt: Time)

  /** A batch: one aggregate and an ordered sequence of its events. */
  datatype AggregateEvents = AggregateEvents(aggregate: Aggregate, events: seq<Event>)

  /**
   * The replies of a `Storage` implementation, one function per operation.
   * `append` answers with the batch's events as the store wrote them back
   * into the caller's slice (that is, with the versions it assigned).
   */
  datatype Storage = Storage(
    fromVersion: (Aggregate, nat) -> Result<AggregateEvents>,
    append: (AggregateEvents, nat) -> Result<seq<Event>>,
    all: string -> Result<seq<AggregateEvents>>,
    copy: (string, string, nat, string) -> Option<string>)

  /** The reply of a `Publisher` to one batch (None is a nil error). */
  type Publisher = AggregateEvents -> Option<string>

  /** Identifies a delivery callback `func(Aggregate, Event)`. */
  type HandlerRef = nat

  /**
   * A `Subscription` struct passed by value: its name, topic routes,
   * per-aggregate match table and delivery callback.
   */
  datatype Sub = Sub(
    name: string,
    routes: seq<string>,
    subscriptions: map<string, map<string, bool>>,
    handler: HandlerRef)

  /** One call `handler(aggregate, event)` of a subscription's delivery callback. */
  type Delivery = (Aggregate, Event)

  /** The reply of a `Subscriber` to one subscription. */
  type SubscriberReply = Sub -> Option<string>

  /** The topic route `id.aggregate.event`. */
  function Route(id: string, aggregate: string, event: string): (r: string)
    ensures |r| == |id| + |aggregate| + |event| + 2
    ensures r[..|id|] == id && r[|id|] == '.'
    ensures r[|id| + 1..|id| + 1 + |aggregate|] == aggregate && r[|id| + 1 + |aggregate|] == '.'
    ensures r[|id| + 2 + |aggregate|..] == event
  {
    id + "." + aggregate + "." + event
  }

  /** One route `*.aggregate.e` per event name, in argument order. */
  function NamedRoutes(aggregate: string, events: seq<string>): (r: seq<string>)
    ensures |r| == |events|
    ensures forall i :: 0 <= i < |events| ==> r[i] == Route("*", aggregate, events[i])
  {
    seq(|events|, i requires 0 <= i < |events| => Route("*", aggregate, events[i]))
  }

  /** The routes `AggregateEvents(aggregate, events...)` appends. */
  function EventRoutes(aggregate: string, events: seq<string>): seq<string>
  {
    if |events| == 0 then [Route("*", aggregate, "*")] else NamedRoutes(aggregate, events)
  }

  /** The match-table entry for a list of event names: each maps to true. */
  function MatchSet(events: seq<string>): (m: map<string, bool>)
    ensures m.Keys == set e | e in events
    ensures forall e :: e in m ==> m[e]
  {
    map e | e in events :: true
  }

  /** Extending the names by one appends that name's route. */
  lemma NamedRoutesSnoc(aggregate: string, events: seq<string>, i: nat)
    requires i < |events|
    ensures NamedRoutes(aggregate, events[..i + 1])
         == NamedRoutes(aggregate, events[..i]) + [Route("*", aggregate, events[i])]
  {
  }

  /** Extending the names by one adds that name to the match set. */
  lemma MatchSetSnoc(events: seq<string>, j: nat)
    requires j < |events|
    ensures MatchSet(events[..j + 1]) == MatchSet(events[..j])[events[j] := true]
  {
    assert events[..j + 1] == events[..j] + [events[j]];
  }

  lemma {:induction false} EventRoutesShape(aggregate: string, events: seq<string>)
    ensures |EventRoutes(aggregate, events)| == if |events| == 0 then 1 else |events|
    ensures |events| == 0 ==> EventRoutes(aggregate, events) == ["*." + aggregate + ".*"]
    ensures forall i :: 0 <= i < |events| ==>
      EventRoutes(aggregate, events)[i] == "*." + aggregate + "." + events[i]
  {
    assert Route("*", aggregate, "*") == "*." + aggregate + ".*";
    forall i | 0 <= i < |events|
      ensures Route("*", aggregate, events[i]) == "*." + aggregate + "." + events[i]
    {
    }
  }

  /** The builder `es.Subscription`, which `Name` and `AggregateEvents` update in place. */
  class Subscription {
    var name: string
    var routes: seq<string>
    var subscriptions: map<string, map<string, bool>>
    const handler: HandlerRef

    /** `NewSubscription(h)`: no name, no routes, an empty match table. */
    constructor (h: HandlerRef)
      ensures name == "" && routes == [] && subscriptions == map[] && handler == h
    {
      name := "";
      routes := [];
      subscriptions := map[];
      handler := h;
    }

    /** The struct value `*s`, as handed to a `Subscriber`. */
    function Value(): Sub
      reads this
    {
      Sub(name, routes, subscriptions, handler)
    }

    /** `Name(n)` sets the name and nothing else. */
    method Name(n: string) returns (self: Subscription)
      modifies this
      ensures self == this
      ensures name == n && routes == old(routes) && subscriptions == old(subscriptions)
    {
      name := n;
      self := this;
    }

    /**
     * `AggregateEvents(aggregate, events...)` appends the routes for the
     * aggregate (one wildcard route when no names are given) and replaces
     * the aggregate's match-table entry by exactly the given names.
     */
    method AggregateEvents(aggregate: string, events: seq<string>) returns (self: Subscription)
      modifies this
      ensures self == this && name == old(name)
      ensures routes == old(routes) + EventRoutes(aggregate, events)
      ensures subscriptions == old(subscriptions)[aggregate := MatchSet(events)]
    {
      AddRoutes(aggregate, events);
      SetEntry(aggregate, events);
      self := this;
    }

    /** The route loop of `AggregateEvents`. */
    method AddRoutes(aggregate: string, events: seq<string>)
      modifies this
      ensures name == old(name) && subscriptions == old(subscriptions)
      ensures routes == old(routes) + EventRoutes(aggregate, events)
    {
      var wildcard := if |events| == 0 then [Route("*", aggregate, "*")] else [];
      routes := routes + wildcard;
      var i := 0;
      while i < |events|
        invariant 0 <= i <= |events|
        invariant routes == old(routes) + wildcard + NamedRoutes(aggregate, events[..i])
        invariant name == old(name) && subscriptions == old(subscriptions)
      {
        NamedRoutesSnoc(aggregate, events, i);
        routes := routes + [Route("*", aggregate, events[i])];
        i := i + 1;
      }
      assert events[..|events|] == events;
    }

    /** The table loop of `AggregateEvents`. */
    method SetEntry(aggregate: string, events: seq<string>)
      modifies this
      ensures name == old(name) && routes == old(routes)
      ensures subscriptions == old(subscriptions)[aggregate := MatchSet(events)]
    {
      var entry: map<string, bool> := map[];
      assert MatchSet(events[..0]) == entry;
      var j := 0;
      while j < |events|
        invariant 0 <= j <= |events|
        invariant entry == MatchSet(events[..j])
        modifies {}
      {
        MatchSetSnoc(events, j);
        entry := entry[events[j] := true];
        j := j + 1;
      }
      assert events[..|events|] == events;
      subscriptions := subscriptions[aggregate := entry];
    }
  }
}
