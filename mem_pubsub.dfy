/**
 * The in-memory pub/sub of package `es` (mem_pubsub.go): the subscriber
 * list, and the rule by which a subscriber's run loop decides which events
 * of a published batch reach its handler.
 */
module EsMemPubSub {
  import opened Wrappers
  import opened Es

  /** One subscriber: the name, handler and match table copied from its `Subscription`. */
  datatype MemSubscription = MemSubscription(
    name: string,
    handler: HandlerRef,
    subscriptions: map<string, map<string, bool>>)

  /** Whether a table entry marks an event type (a missing key reads as false). */
  predicate Marked(table: map<string, bool>, t: string)
  {
    t in table && table[t]
  }

  /** The handler calls that the events `evs` of a batch for `a` cause under the table entry `table`. */
  function Selected(table: map<string, bool>, a: Aggregate, evs: seq<Event>): seq<Delivery>
  {
    if evs == [] then []
    else
      var e := evs[|evs| - 1];
      Selected(table, a, evs[..|evs| - 1]) + (if Marked(table, e.typ) then [(a, e)] else [])
  }

  /** The handler calls that one batch causes: none when its aggregate type has no entry. */
  function Matching(s: MemSubscription, ae: AggregateEvents): seq<Delivery>
  {
    if ae.aggregate.typ in s.subscriptions
    then Selected(s.subscriptions[ae.aggregate.typ], ae.aggregate, ae.events)
    else []
  }

  /** The handler calls that a stream of batches causes, batch after batch. */
  function Deliveries(s: MemSubscription, stream: seq<AggregateEvents>): seq<Delivery>
  {
    if stream == [] then []
    else Deliveries(s, stream[..|stream| - 1]) + Matching(s, stream[|stream| - 1])
  }

  // ---------------------------------------------------------------- lemmas

  /** Selection distributes over concatenation, so it keeps batch order. */
  lemma {:induction false} SelectedAppend(table: map<string, bool>, a: Aggregate, x: seq<Event>, y: seq<Event>)
    ensures Selected(table, a, x + y) == Selected(table, a, x) + Selected(table, a, y)
    decreases |y|
  {
    if y == [] {
      assert x + y == x;
    } else {
      var y' := y[..|y| - 1];
      assert (x + y)[..|x + y| - 1] == x + y';
      assert (x + y)[|x + y| - 1] == y[|y| - 1];
      SelectedAppend(table, a, x, y');
    }
  }

  /** A single event is delivered, with the batch's aggregate, exactly when its type is marked. */
  lemma SelectedOne(table: map<string, bool>, a: Aggregate, e: Event)
    ensures Selected(table, a, [e]) == if Marked(table, e.typ) then [(a, e)] else []
  {
    assert [e][..0] == [];
  }

  /** Every call carries the batch's aggregate and a marked event of the batch, and every marked event is called. */
  lemma {:induction false} SelectedMembers(table: map<string, bool>, a: Aggregate, evs: seq<Event>, d: Delivery)
    ensures d in Selected(table, a, evs) <==> d.0 == a && d.1 in evs && Marked(table, d.1.typ)
  {
    if evs != [] {
      var init := evs[..|evs| - 1];
      SelectedMembers(table, a, init, d);
      assert evs == init + [evs[|evs| - 1]];
    }
  }

  /** At most one call per event, and exactly one per event when every type is marked. */
  lemma {:induction false} SelectedLength(table: map<string, bool>, a: Aggregate, evs: seq<Event>)
    ensures |Selected(table, a, evs)| <= |evs|
    ensures (forall i :: 0 <= i < |evs| ==> Marked(table, evs[i].typ)) ==> |Selected(table, a, evs)| == |evs|
  {
    if evs != [] {
      var init := evs[..|evs| - 1];
      SelectedLength(table, a, init);
    }
  }

  /** The wildcard case: an empty table entry selects no event of any batch. */
  lemma {:induction false} EmptyEntrySelectsNothing(a: Aggregate, evs: seq<Event>)
    ensures Selected(map[], a, evs) == []
  {
    if evs != [] {
      EmptyEntrySelectsNothing(a, evs[..|evs| - 1]);
    }
  }

  /** An aggregate subscribed with an empty event set (the wildcard) delivers nothing. */
  lemma WildcardDeliversNothing(s: MemSubscription, ae: AggregateEvents)
    requires ae.aggregate.typ in s.subscriptions && s.subscriptions[ae.aggregate.typ] == map[]
    ensures Matching(s, ae) == []
  {
    EmptyEntrySelectsNothing(ae.aggregate, ae.events);
  }

  /** A stream none of whose aggregate types has an entry delivers nothing. */
  lemma {:induction false} UnknownTypesDeliverNothing(s: MemSubscription, stream: seq<AggregateEvents>)
    requires forall i :: 0 <= i < |stream| ==> stream[i].aggregate.typ !in s.subscriptions
    ensures Deliveries(s, stream) == []
  {
    if stream != [] {
      UnknownTypesDeliverNothing(s, stream[..|stream| - 1]);
    }
  }

  /** Delivery of a stream is the delivery of its parts, in order. */
  lemma {:induction false} DeliveriesAppend(s: MemSubscription, x: seq<AggregateEvents>, y: seq<AggregateEvents>)
    ensures Deliveries(s, x + y) == Deliveries(s, x) + Deliveries(s, y)
    decreases |y|
  {
    if y == [] {
      assert x + y == x;
    } else {
      var y' := y[..|y| - 1];
      assert (x + y)[..|x + y| - 1] == x + y';
      assert (x + y)[|x + y| - 1] == y[|y| - 1];
      DeliveriesAppend(s, x, y');
    }
  }

  /**
   * `run`: reads the stream batch by batch, skips a batch whose aggregate
   * type has no entry, and calls the handler for each marked event in order.
   * The returned sequence is the log of handler calls.
   */
  method Run(s: MemSubscription, stream: seq<AggregateEvents>) returns (calls: seq<Delivery>)
    ensures calls == Deliveries(s, stream)
  {
    calls := [];
    var i := 0;
    while i < |stream|
      invariant 0 <= i <= |stream|
      invariant calls == Deliveries(s, stream[..i])
    {
      var a := stream[i];
      assert stream[..i + 1][..i] == stream[..i];
      if a.aggregate.typ !in s.subscriptions {
        i := i + 1;
        continue;
      }
      var subscription := s.subscriptions[a.aggregate.typ];
      ghost var before := calls;
      var j := 0;
      while j < |a.events|
        invariant 0 <= j <= |a.events|
        invariant calls == before + Selected(subscription, a.aggregate, a.events[..j])
      {
        var event := a.events[j];
        assert a.events[..j + 1][..j] == a.events[..j];
        if !(event.typ in subscription && subscription[event.typ]) {
          j := j + 1;
          continue;
        }
        calls := calls + [(a.aggregate, event)];
        j := j + 1;
      }
      assert a.events[..j] == a.events;
      i := i + 1;
    }
    assert stream[..i] == stream;
  }

  /** The in-memory pub/sub: its subscriber list grows in place. */
  class MemPubSub {
    var subs2: seq<MemSubscription>

    /** `NewMemPubSub()`: no subscribers. */
    constructor ()
      ensures subs2 == []
    {
      subs2 := [];
    }

    /** `Publish(a)`: never fails; the goroutine hand-off to the subscribers is not modelled. */
    method Publish(a: AggregateEvents) returns (err: Option<string>)
      ensures err == None
    {
      err := None;
    }

    /** `Subscribe(s)`: appends one subscriber copied from `s`, keeps the others, never fails. */
    method Subscribe(s: Sub) returns (err: Option<string>)
      modifies this
      ensures subs2 == old(subs2) + [MemSubscription(s.name, s.handler, s.subscriptions)]
      ensures err == None
    {
      var z := MemSubscription(s.name, s.handler, s.subscriptions);
      subs2 := subs2 + [z];
      err := None;
    }
  }
}
