/**
 * The vocabulary of package `cqrs` (cqrs.go, serializer.go): domain values,
 * their derived names, decoded events, the serializer boundary and the
 * consumer-supplied event handlers and aggregate roots.
 */
module Cqrs {
  import opened Wrappers
  import Es

  type Bytes = Es.Bytes

  /** Decoded metadata; Go's nil map is the empty map here. */
  type Meta = map<string, string>

  /**
   * A Go `interface{}` value as the core sees it: nil, a string, or a value
   * of some named type. `typeName` is the name `name()` derives for it,
   * from its `Type()` method or its reflected type name.
   */
  datatype Value = Nil | Str(s: string) | Record(typeName: string, fields: Bytes)

  /** `name(v)`: "" for nil, the string itself for a string, else the derived type name. */
  function Name(v: Value): string
  {
    match v
    case Nil => ""
    case Str(s) => s
    case Record(t, _) => t
  }

  /** A decoded event, as handed to `Handle`. */
  datatype Event = Event(aggregate: Es.Aggregate, data: Value, meta: Meta, typ: string, version: nat, createdAt: Es.Time)

  /**
   * The serializer as partial functions: encoding a value or metadata, and
   * decoding bytes into a fresh target shaped like a prototype, or into metadata.
   */
  datatype Serializer = Serializer(
    marshal: Value -> Result<Bytes>,
    unmarshal: (Bytes, Value) -> Result<Value>,
    marshalMeta: Meta -> Result<Bytes>,
    unmarshalMeta: Bytes -> Result<Meta>)

  /**
   * A consumer's `EventHandler`: `received` logs every call to `Handle`, in
   * order, and `verdict` is the error `Handle` answers for an event.
   */
  class EventHandler {
    var received: seq<Event>
    const verdict: Event -> Option<string>

    constructor (verdict: Event -> Option<string>)
      ensures received == [] && this.verdict == verdict
    {
      received := [];
      this.verdict := verdict;
    }

    method Handle(e: Event) returns (err: Option<string>)
      modifies this
      ensures received == old(received) + [e]
      ensures err == verdict(e)
    {
      received := received + [e];
      err := verdict(e);
    }
  }

  /**
   * A consumer's `AggregateRoot`: its details, its uncommitted domain events
   * and the `EventHandler` it embeds.
   */
  class AggregateRoot {
    const id: string
    const name: string
    const version: nat
    var uncommitted: seq<Value>
    const handler: EventHandler

    constructor (id: string, name: string, version: nat, uncommitted: seq<Value>, handler: EventHandler)
      ensures this.id == id && this.name == name && this.version == version
      ensures this.uncommitted == uncommitted && this.handler == handler
    {
      this.id := id;
      this.name := name;
      this.version := version;
      this.uncommitted := uncommitted;
      this.handler := handler;
    }

    /** `Uncommitted(drain)`: the pending events, emptied when `drain` is set. */
    method Uncommitted(drain: bool) returns (events: seq<Value>)
      modifies this
      ensures events == old(uncommitted)
      ensures uncommitted == if drain then [] else old(uncommitted)
    {
      events := uncommitted;
      if drain {
        uncommitted := [];
      }
    }
  }
}
