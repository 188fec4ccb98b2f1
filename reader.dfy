/**
 * The event reader (reader.go): replays the stored events of one aggregate,
 * or of every aggregate of a type, into an event handler. It uses the
 * replay rule of the repository in its reader form: empty metadata is not
 * decoded, and errors are returned without context.
 */
module CqrsReader {
  import opened Wrappers
  import opened Cqrs
  import Es
  import opened CqrsRegistry
  import opened CqrsRepository

  /**
   * The events a sequential read of the batches `bs` hands to the handler:
   * each batch is replayed on its own and a failing batch does not stop the
   * others (its error is only logged).
   */
  function ReadAll(reg: map<string, Value>, ser: Serializer, verdict: Event -> Option<string>,
                   bs: seq<Es.AggregateEvents>): seq<Event>
  {
    if bs == [] then []
    else
      var b := bs[|bs| - 1];
      ReadAll(reg, ser, verdict, bs[..|bs| - 1]) + Replay(ReadMode, reg, ser, verdict, b.aggregate, b.events).handled
  }

  /** Reading batches one after another is reading each part, in order. */
  lemma {:induction false} ReadAllAppend(reg: map<string, Value>, ser: Serializer, verdict: Event -> Option<string>,
                                         x: seq<Es.AggregateEvents>, y: seq<Es.AggregateEvents>)
    ensures ReadAll(reg, ser, verdict, x + y) == ReadAll(reg, ser, verdict, x) + ReadAll(reg, ser, verdict, y)
    decreases |y|
  {
    if y == [] {
      assert x + y == x;
    } else {
      var y' := y[..|y| - 1];
      assert (x + y)[..|x + y| - 1] == x + y';
      assert (x + y)[|x + y| - 1] == y[|y| - 1];
      ReadAllAppend(reg, ser, verdict, x, y');
    }
  }

  /**
   * A failing batch does not hide the others: the events of batch `j` reach
   * the handler right after those of the batches before it, and the batches
   * after it follow, whatever the replay of batch `j` returned.
   */
  lemma ReadAllEachBatch(reg: map<string, Value>, ser: Serializer, verdict: Event -> Option<string>,
                         bs: seq<Es.AggregateEvents>, j: nat)
    requires j < |bs|
    ensures ReadAll(reg, ser, verdict, bs) ==
      ReadAll(reg, ser, verdict, bs[..j]) +
      Replay(ReadMode, reg, ser, verdict, bs[j].aggregate, bs[j].events).handled +
      ReadAll(reg, ser, verdict, bs[j + 1..])
  {
    assert bs == bs[..j] + [bs[j]] + bs[j + 1..];
    ReadAllAppend(reg, ser, verdict, bs[..j] + [bs[j]], bs[j + 1..]);
    ReadAllAppend(reg, ser, verdict, bs[..j], [bs[j]]);
    assert [bs[j]][..0] == [];
  }

  /** Every event handed to the handler carries the aggregate of the batch it was read from. */
  lemma {:induction false} ReadAllAggregates(reg: map<string, Value>, ser: Serializer, verdict: Event -> Option<string>,
                                             bs: seq<Es.AggregateEvents>, e: Event)
    requires e in ReadAll(reg, ser, verdict, bs)
    ensures exists j :: 0 <= j < |bs| && e.aggregate == bs[j].aggregate
  {
    var init := bs[..|bs| - 1];
    var b := bs[|bs| - 1];
    var r := Replay(ReadMode, reg, ser, verdict, b.aggregate, b.events);
    if e in ReadAll(reg, ser, verdict, init) {
      ReadAllAggregates(reg, ser, verdict, init, e);
      var j :| 0 <= j < |init| && e.aggregate == init[j].aggregate;
      assert bs[j] == init[j];
    } else {
      assert e in r.handled;
      ReplayHandlesRegisteredPrefix(ReadMode, reg, ser, verdict, b.aggregate, b.events);
      var i :| 0 <= i < |r.handled| && r.handled[i] == e;
      assert DecodedFrom(r.handled[i], RegisteredOf(reg, b.events)[i], b.aggregate, reg, ser);
      assert bs[|bs| - 1] == b;
    }
  }

  /** `EventReader`: the serializer, the store, the registry of wanted event types and the aggregate to read. */
  datatype EventReader = EventReader(serializer: Serializer, store: Es.Storage, events: Registry, aggregate: Es.Aggregate)
  {
    /**
     * `read(a, h)`: replays one batch into `h`, skipping unregistered types,
     * and stops with the first decode or handle error, returned as is.
     */
    method ReadBatch(a: Es.AggregateEvents, h: EventHandler) returns (err: Option<string>)
      modifies h
      ensures var r := Replay(ReadMode, events.entries, serializer, h.verdict, a.aggregate, a.events);
        h.received == old(h.received) + r.handled && err == r.err
    {
      ghost var reg := events.entries;
      var i := 0;
      while i < |a.events|
        invariant 0 <= i <= |a.events|
        invariant h.received == old(h.received) + Replay(ReadMode, reg, serializer, h.verdict, a.aggregate, a.events[..i]).handled
        invariant Replay(ReadMode, reg, serializer, h.verdict, a.aggregate, a.events[..i]).err == None
      {
        assert a.events[..i + 1][..i] == a.events[..i] && a.events[..i + 1][i] == a.events[i];
        var e := ReadEvent(a.aggregate, a.events[i], h);
        if e.Some? {
          ReplaySticks(ReadMode, reg, serializer, h.verdict, a.aggregate, a.events, i + 1);
          return e;
        }
        i := i + 1;
      }
      assert a.events[..i] == a.events;
      err := None;
    }

    /** One pass of `read`'s loop: look the type up, decode, and hand the event to the handler. */
    method ReadEvent(agg: Es.Aggregate, d: Es.Event, h: EventHandler) returns (err: Option<string>)
      modifies h
      ensures var o := ReplayOne(ReadMode, events.entries, serializer, h.verdict, agg, d);
        h.received == old(h.received) + o.handled && err == o.err
    {
      var value := events.Type(d.typ);
      if value.Err? {
        return None;
      }
      var decoded := DecodeForRead(agg, d, value.value);
      if decoded.Err? {
        return Some(decoded.msg);
      }
      err := h.Handle(decoded.value);
    }

    /**
     * The decoding steps of `read` for one registered event: the payload,
     * then the metadata when it is non-empty (a nil map otherwise); errors
     * are returned as they are.
     */
    method DecodeForRead(agg: Es.Aggregate, d: Es.Event, prototype: Value) returns (r: Result<Event>)
      ensures r == Decoded(ReadMode, serializer, agg, d, prototype)
    {
      var ptr := serializer.unmarshal(d.data, prototype);
      if ptr.Err? {
        return Err(ptr.msg);
      }
      var m: Meta := map[];
      if |d.meta| > 0 {
        var decoded := serializer.unmarshalMeta(d.meta);
        if decoded.Err? {
          return Err(decoded.msg);
        }
        m := decoded.value;
      }
      r := Ok(Event(agg, ptr.value, m, d.typ, d.version, d.createdAt));
    }

    /**
     * `Read(h)`: with an aggregate id, replays that aggregate and returns
     * the store's or the replay's error; without one, replays every batch of
     * the aggregate type, ignores the batches' errors and returns nil unless
     * the store fails.
     */
    method Read(h: EventHandler) returns (err: Option<string>)
      modifies h
      ensures aggregate.id != "" ==>
        match store.fromVersion(aggregate, 0)
        case Err(e) => err == Some(e) && h.received == old(h.received)
        case Ok(p) =>
          var r := Replay(ReadMode, events.entries, serializer, h.verdict, p.aggregate, p.events);
          h.received == old(h.received) + r.handled && err == r.err
      ensures aggregate.id == "" ==>
        match store.all(aggregate.typ)
        case Err(e) => err == Some(e) && h.received == old(h.received)
        case Ok(bs) => h.received == old(h.received) + ReadAll(events.entries, serializer, h.verdict, bs) && err == None
    {
      if aggregate.id != "" {
        var one := store.fromVersion(aggregate, 0);
        if one.Err? {
          return Some(one.msg);
        }
        err := ReadBatch(one.value, h);
        return;
      }
      var all := store.all(aggregate.typ);
      if all.Err? {
        return Some(all.msg);
      }
      var bs := all.value;
      var i := 0;
      while i < |bs|
        invariant 0 <= i <= |bs|
        invariant h.received == old(h.received) + ReadAll(events.entries, serializer, h.verdict, bs[..i])
      {
        assert bs[..i + 1][..i] == bs[..i];
        var logged := ReadBatch(bs[i], h);
        i := i + 1;
      }
      assert bs[..i] == bs;
      err := None;
    }
  }
}
