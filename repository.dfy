/**
 * The repository of package `cqrs` (repository.go): loading an aggregate
 * root by replaying its stored events into its handler, and storing its
 * uncommitted events as one batch that is appended and then published.
 * The replay rule is shared with the event reader (reader.go), which
 * differs only in how it treats metadata and how it reports errors.
 */
module CqrsRepository {
  import opened Wrappers
  import opened Cqrs
  import Es
  import opened CqrsRegistry

  /** Which replay loop: `Repository.Load` or `EventReader.read`. */
  datatype Mode = LoadMode | ReadMode

  /** How a replay ends: every event handed to `Handle`, in order, and the error that stopped it. */
  datatype Replayed = Replayed(handled: seq<Event>, err: Option<string>)

  /**
   * The metadata of a stored event: `Load` always decodes it; `read`
   * decodes it only when it is non-empty and leaves a nil map otherwise.
   */
  function DecodeMeta(mode: Mode, ser: Serializer, meta: Bytes): Result<Meta>
  {
    if mode == ReadMode && |meta| == 0 then Ok(map[]) else ser.unmarshalMeta(meta)
  }

  /** The error a replay returns: `Load` wraps it with the event type, `read` returns it as is. */
  function Failure(mode: Mode, context: string, e: string): string
  {
    if mode == LoadMode then context + e else e
  }

  /**
   * The replay of the stored events `evs` of `agg` (in stored order) against
   * the registry `reg`: unregistered types are skipped; a registered event
   * is decoded into its prototype, its metadata decoded, and the decoded
   * event handed to the handler, whose answers are `verdict`; the first
   * decode or handle failure stops the replay.
   */
  function Replay(mode: Mode, reg: map<string, Value>, ser: Serializer, verdict: Event -> Option<string>,
                  agg: Es.Aggregate, evs: seq<Es.Event>): Replayed
  {
    if evs == [] then Replayed([], None)
    else
      var r := Replay(mode, reg, ser, verdict, agg, evs[..|evs| - 1]);
      if r.err.Some? then r
      else
        var o := ReplayOne(mode, reg, ser, verdict, agg, evs[|evs| - 1]);
        Replayed(r.handled + o.handled, o.err)
  }

  /**
   * The replay step for one stored event `d`: skipped when its type is not
   * registered; otherwise decoded and, when that succeeds, handed to the
   * handler, whose error (with context in `Load`) stops the replay.
   */
  function ReplayOne(mode: Mode, reg: map<string, Value>, ser: Serializer, verdict: Event -> Option<string>,
                     agg: Es.Aggregate, d: Es.Event): Replayed
  {
    if d.typ !in reg then Replayed([], None)
    else
      match Decoded(mode, ser, agg, d, reg[d.typ])
      case Err(e) => Replayed([], Some(e))
      case Ok(e) =>
        var h := verdict(e);
        Replayed([e], if h.Some? then Some(Failure(mode, "event " + d.typ + " handling: ", h.value)) else None)
  }

  /**
   * One registered stored event `d` of `agg` decoded against its prototype:
   * the payload, then the metadata; the decoded event keeps the stored
   * type, version and time.
   */
  function Decoded(mode: Mode, ser: Serializer, agg: Es.Aggregate, d: Es.Event, prototype: Value): Result<Event>
  {
    var v := ser.unmarshal(d.data, prototype);
    if v.Err? then Err(Failure(mode, "event " + d.typ + " decoding: ", v.msg))
    else
      var m := DecodeMeta(mode, ser, d.meta);
      if m.Err? then Err(Failure(mode, "meta " + d.typ + " decoding: ", m.msg))
      else Ok(Event(agg, v.value, m.value, d.typ, d.version, d.createdAt))
  }

  /** The stored events of `evs` whose type is registered, in stored order. */
  function RegisteredOf(reg: map<string, Value>, evs: seq<Es.Event>): seq<Es.Event>
  {
    if evs == [] then []
    else RegisteredOf(reg, evs[..|evs| - 1]) + (if evs[|evs| - 1].typ in reg then [evs[|evs| - 1]] else [])
  }

  /** The decoded event built from stored event `d` of `agg`, when its payload decodes. */
  ghost predicate DecodedFrom(e: Event, d: Es.Event, agg: Es.Aggregate, reg: map<string, Value>, ser: Serializer)
  {
    d.typ in reg && ser.unmarshal(d.data, reg[d.typ]).Ok? &&
    e == Event(agg, ser.unmarshal(d.data, reg[d.typ]).value, e.meta, d.typ, d.version, d.createdAt)
  }

  /**
   * The batch `Store` builds from the uncommitted events: one stored event
   * per domain event, in order, named by its derived name, with the encoded
   * metadata and the one timestamp; the first encode failure is the error.
   */
  function Batch(n: string, uncommitted: seq<Value>, m: Meta, now: Es.Time, ser: Serializer): Result<seq<Es.Event>>
  {
    if uncommitted == [] then Ok([])
    else
      var r := Batch(n, uncommitted[..|uncommitted| - 1], m, now, ser);
      var v := uncommitted[|uncommitted| - 1];
      if r.Err? then r
      else if ser.marshal(v).Err? then Err(n + " could not decode " + Name(v) + " event: " + ser.marshal(v).msg)
      else if ser.marshalMeta(m).Err? then Err(n + " could not decode meta: " + ser.marshalMeta(m).msg)
      else Ok(r.value + [Es.Event(ser.marshal(v).value, ser.marshalMeta(m).value, Name(v), 0, now)])
  }

  // ---------------------------------------------------------------- lemmas

  /** Once a replay has failed, later events change nothing: no later event is handled. */
  lemma {:induction false} ReplaySticks(mode: Mode, reg: map<string, Value>, ser: Serializer, verdict: Event -> Option<string>,
                                        agg: Es.Aggregate, evs: seq<Es.Event>, k: nat)
    requires k <= |evs| && Replay(mode, reg, ser, verdict, agg, evs[..k]).err.Some?
    ensures Replay(mode, reg, ser, verdict, agg, evs) == Replay(mode, reg, ser, verdict, agg, evs[..k])
    decreases |evs| - k
  {
    if k < |evs| {
      assert evs[..k + 1][..k] == evs[..k];
      ReplaySticks(mode, reg, ser, verdict, agg, evs, k + 1);
    } else {
      assert evs[..k] == evs;
    }
  }

  /**
   * What a replay hands to the handler: a prefix of the registered events,
   * in stored order, each decoded from its stored event with the batch's
   * aggregate and the stored type, version and time; every handled event
   * but the last was accepted by the handler; and the replay succeeds
   * exactly when every registered event was handled and accepted.
   */
  lemma {:induction false} ReplayHandlesRegisteredPrefix(mode: Mode, reg: map<string, Value>, ser: Serializer,
                                                         verdict: Event -> Option<string>, agg: Es.Aggregate, evs: seq<Es.Event>)
    ensures var r := Replay(mode, reg, ser, verdict, agg, evs);
      var g := RegisteredOf(reg, evs);
      |r.handled| <= |g| &&
      (forall i :: 0 <= i < |r.handled| ==> DecodedFrom(r.handled[i], g[i], agg, reg, ser)) &&
      (forall i :: 0 <= i < |r.handled| - 1 ==> verdict(r.handled[i]) == None) &&
      (r.err == None <==> |r.handled| == |g| && forall i :: 0 <= i < |r.handled| ==> verdict(r.handled[i]) == None)
  {
    if evs != [] {
      var init := evs[..|evs| - 1];
      ReplayHandlesRegisteredPrefix(mode, reg, ser, verdict, agg, init);
      var r0 := Replay(mode, reg, ser, verdict, agg, init);
      var g0 := RegisteredOf(reg, init);
      var r := Replay(mode, reg, ser, verdict, agg, evs);
      var g := RegisteredOf(reg, evs);
      assert g[..|g0|] == g0;
      if r0.err.None? && evs[|evs| - 1].typ in reg {
        assert g == g0 + [evs[|evs| - 1]];
        assert forall i :: 0 <= i < |r0.handled| ==> r.handled[i] == r0.handled[i];
        if r.handled != r0.handled {
          assert r.handled == r0.handled + [r.handled[|r0.handled|]];
          assert r.err == None <==> verdict(r.handled[|r0.handled|]) == None;
        }
      }
    }
  }

  /** An unregistered event is skipped: it changes neither the handled events nor the error. */
  lemma ReplaySkipsUnknown(mode: Mode, reg: map<string, Value>, ser: Serializer, verdict: Event -> Option<string>,
                           agg: Es.Aggregate, evs: seq<Es.Event>, d: Es.Event)
    requires d.typ !in reg
    ensures Replay(mode, reg, ser, verdict, agg, evs + [d]) == Replay(mode, reg, ser, verdict, agg, evs)
  {
    assert (evs + [d])[..|evs|] == evs;
  }

  /**
   * `Load` and `read` agree on events with non-empty metadata: they hand
   * the same events to the handler and fail on the same event.
   */
  lemma {:induction false} LoadReadAgree(reg: map<string, Value>, ser: Serializer, verdict: Event -> Option<string>,
                                         agg: Es.Aggregate, evs: seq<Es.Event>)
    requires forall i :: 0 <= i < |evs| ==> |evs[i].meta| > 0
    ensures Replay(LoadMode, reg, ser, verdict, agg, evs).handled == Replay(ReadMode, reg, ser, verdict, agg, evs).handled
    ensures Replay(LoadMode, reg, ser, verdict, agg, evs).err.None? <==> Replay(ReadMode, reg, ser, verdict, agg, evs).err.None?
  {
    if evs != [] {
      LoadReadAgree(reg, ser, verdict, agg, evs[..|evs| - 1]);
    }
  }

  /** `read` never fails on empty metadata, which it hands on as a nil map; `Load` always decodes it. */
  lemma MetaRule(ser: Serializer, meta: Bytes)
    ensures |meta| == 0 ==> DecodeMeta(ReadMode, ser, meta) == Ok(map[])
    ensures DecodeMeta(LoadMode, ser, meta) == ser.unmarshalMeta(meta)
    ensures |meta| > 0 ==> DecodeMeta(ReadMode, ser, meta) == ser.unmarshalMeta(meta)
  {
  }

  /** Once building the batch has failed, later events change nothing. */
  lemma {:induction false} BatchSticks(n: string, uncommitted: seq<Value>, m: Meta, now: Es.Time, ser: Serializer, k: nat)
    requires k <= |uncommitted| && Batch(n, uncommitted[..k], m, now, ser).Err?
    ensures Batch(n, uncommitted, m, now, ser) == Batch(n, uncommitted[..k], m, now, ser)
    decreases |uncommitted| - k
  {
    if k < |uncommitted| {
      assert uncommitted[..k + 1][..k] == uncommitted[..k];
      BatchSticks(n, uncommitted, m, now, ser, k + 1);
    } else {
      assert uncommitted[..k] == uncommitted;
    }
  }

  /**
   * The batch holds one stored event per uncommitted event, in order, named
   * by its derived name, with the same metadata bytes, the one timestamp and
   * no version; it fails exactly when some event or the metadata does not
   * encode.
   */
  lemma {:induction false} BatchShape(n: string, uncommitted: seq<Value>, m: Meta, now: Es.Time, ser: Serializer)
    ensures Batch(n, uncommitted, m, now, ser).Ok? <==>
      forall i :: 0 <= i < |uncommitted| ==> ser.marshal(uncommitted[i]).Ok? && ser.marshalMeta(m).Ok?
    ensures Batch(n, uncommitted, m, now, ser).Ok? ==>
      var b := Batch(n, uncommitted, m, now, ser).value;
      |b| == |uncommitted| &&
      forall i :: 0 <= i < |b| ==>
        b[i] == Es.Event(ser.marshal(uncommitted[i]).value, ser.marshalMeta(m).value, Name(uncommitted[i]), 0, now)
  {
    if uncommitted != [] {
      var init := uncommitted[..|uncommitted| - 1];
      BatchShape(n, init, m, now, ser);
      assert forall i :: 0 <= i < |init| ==> init[i] == uncommitted[i];
    }
  }

  // ---------------------------------------------------------------- the repository

  /** `Repository`: the event store, an optional publisher and the serializer. */
  datatype Repository = Repository(store: Es.Storage, publisher: Option<Es.Publisher>, serializer: Serializer)
  {
    /**
     * What `Store` returns, and the batch it hands to the publisher: the
     * batch error; else the wrapped `Append` error with nothing published;
     * else nil, with the batch as `Append` wrote it back published when a
     * publisher is configured. The publisher's own reply plays no part.
     */
    function Stored(uncommitted: seq<Value>, id: string, n: string, version: nat, m: Meta, now: Es.Time)
      : (Option<string>, Option<Es.AggregateEvents>)
    {
      var agg := Es.Aggregate(id, n);
      match Batch(n, uncommitted, m, now, serializer)
      case Err(e) => (Some(e), None)
      case Ok(b) =>
        match store.append(Es.AggregateEvents(agg, b), version)
        case Err(e) => (Some(n + " could not store events: " + e), None)
        case Ok(w) => (None, if publisher.Some? then Some(Es.AggregateEvents(agg, w)) else None)
    }

    /**
     * `Load(a, events)`: reads the root's aggregate from version 0 and
     * replays it into the root's handler; a store error is wrapped and
     * nothing is handled.
     */
    method Load(a: AggregateRoot, events: Registry) returns (err: Option<string>)
      modifies a.handler
      ensures match store.fromVersion(Es.Aggregate(a.id, a.name), 0)
        case Err(e) =>
          err == Some(a.name + " could not load events: " + e) && a.handler.received == old(a.handler.received)
        case Ok(p) =>
          var r := Replay(LoadMode, events.entries, serializer, a.handler.verdict, p.aggregate, p.events);
          a.handler.received == old(a.handler.received) + r.handled && err == r.err
    {
      var payload := store.fromVersion(Es.Aggregate(a.id, a.name), 0);
      if payload.Err? {
        return Some(a.name + " could not load events: " + payload.msg);
      }
      err := LoadEvents(payload.value, a.handler, events);
    }

    /** The replay loop of `Load`: each registered event decoded and handled, stopping at the first failure. */
    method LoadEvents(p: Es.AggregateEvents, h: EventHandler, events: Registry) returns (err: Option<string>)
      modifies h
      ensures var r := Replay(LoadMode, events.entries, serializer, h.verdict, p.aggregate, p.events);
        h.received == old(h.received) + r.handled && err == r.err
    {
      ghost var reg := events.entries;
      var i := 0;
      while i < |p.events|
        invariant 0 <= i <= |p.events|
        invariant h.received == old(h.received) + Replay(LoadMode, reg, serializer, h.verdict, p.aggregate, p.events[..i]).handled
        invariant Replay(LoadMode, reg, serializer, h.verdict, p.aggregate, p.events[..i]).err == None
      {
        assert p.events[..i + 1][..i] == p.events[..i] && p.events[..i + 1][i] == p.events[i];
        var e := LoadEvent(p.aggregate, p.events[i], h, events);
        if e.Some? {
          ReplaySticks(LoadMode, reg, serializer, h.verdict, p.aggregate, p.events, i + 1);
          return e;
        }
        i := i + 1;
      }
      assert p.events[..i] == p.events;
      err := None;
    }

    /** One pass of `Load`'s loop: look the type up, decode, and hand the event to the handler. */
    method LoadEvent(agg: Es.Aggregate, d: Es.Event, h: EventHandler, events: Registry) returns (err: Option<string>)
      modifies h
      ensures var o := ReplayOne(LoadMode, events.entries, serializer, h.verdict, agg, d);
        h.received == old(h.received) + o.handled && err == o.err
    {
      var event := events.Type(d.typ);
      if event.Err? {
        return None;
      }
      var decoded := DecodeForLoad(agg, d, event.value);
      if decoded.Err? {
        return Some(decoded.msg);
      }
      var herr := h.Handle(decoded.value);
      if herr.Some? {
        return Some("event " + d.typ + " handling: " + herr.value);
      }
      err := None;
    }

    /** The decoding steps of `Load` for one registered event: payload, then metadata, each error with its context. */
    method DecodeForLoad(agg: Es.Aggregate, d: Es.Event, prototype: Value) returns (r: Result<Event>)
      ensures r == Decoded(LoadMode, serializer, agg, d, prototype)
    {
      var v := serializer.unmarshal(d.data, prototype);
      if v.Err? {
        return Err("event " + d.typ + " decoding: " + v.msg);
      }
      var m := serializer.unmarshalMeta(d.meta);
      if m.Err? {
        return Err("meta " + d.typ + " decoding: " + m.msg);
      }
      r := Ok(Event(agg, v.value, m.value, d.typ, d.version, d.createdAt));
    }

    /**
     * `Store(a, m)` at time `now`: drains the root's uncommitted events,
     * builds the batch, appends it with the root's version as expected
     * version, and publishes the written-back batch when a publisher is
     * configured; a publish error is only logged.
     */
    method Store(a: AggregateRoot, m: Meta, now: Es.Time) returns (err: Option<string>, published: Option<Es.AggregateEvents>)
      modifies a
      ensures a.uncommitted == []
      ensures (err, published) == Stored(old(a.uncommitted), a.id, a.name, a.version, m, now)
    {
      var n := a.name;
      var agg := Es.Aggregate(a.id, n);
      var evs: seq<Es.Event> := [];
      var uncommitted := a.Uncommitted(true);
      var i := 0;
      while i < |uncommitted|
        invariant 0 <= i <= |uncommitted|
        invariant Batch(n, uncommitted[..i], m, now, serializer) == Ok(evs)
      {
        var event := uncommitted[i];
        assert uncommitted[..i + 1][..i] == uncommitted[..i];
        var en := Name(event);
        var data := serializer.marshal(event);
        if data.Err? {
          BatchSticks(n, uncommitted, m, now, serializer, i + 1);
          return Some(n + " could not decode " + en + " event: " + data.msg), None;
        }
        var meta := serializer.marshalMeta(m);
        if meta.Err? {
          BatchSticks(n, uncommitted, m, now, serializer, i + 1);
          return Some(n + " could not decode meta: " + meta.msg), None;
        }
        evs := evs + [Es.Event(data.value, meta.value, en, 0, now)];
        i := i + 1;
      }
      assert uncommitted[..i] == uncommitted;
      var written := store.append(Es.AggregateEvents(agg, evs), a.version);
      if written.Err? {
        return Some(n + " could not store events: " + written.msg), None;
      }
      published := None;
      if publisher.Some? {
        var payload := Es.AggregateEvents(agg, written.value);
        var logged := publisher.value(payload);
        published := Some(payload);
      }
      err := None;
    }

    /** `Copy(aggregate, src, from, dst)`: the store's `Copy`, arguments unchanged. */
    function Copy(aggregate: string, src: string, from: nat, dst: string): (r: Option<string>)
      ensures r == store.copy(aggregate, src, from, dst)
    {
      store.copy(aggregate, src, from, dst)
    }
  }

  /** `Store` returns nil exactly when the batch encodes and `Append` succeeds; the publisher's reply never matters. */
  lemma StoreErrors(r: Repository, p: Es.Publisher, uncommitted: seq<Value>, id: string, n: string, version: nat, m: Meta, now: Es.Time)
    ensures var b := Batch(n, uncommitted, m, now, r.serializer);
      r.Stored(uncommitted, id, n, version, m, now).0 == None <==>
        b.Ok? && r.store.append(Es.AggregateEvents(Es.Aggregate(id, n), b.value), version).Ok?
    ensures r.(publisher := Some(p)).Stored(uncommitted, id, n, version, m, now).0 == r.(publisher := None).Stored(uncommitted, id, n, version, m, now).0
    ensures r.Stored(uncommitted, id, n, version, m, now).1.Some? <==>
      r.Stored(uncommitted, id, n, version, m, now).0 == None && r.publisher.Some?
  {
  }
}
