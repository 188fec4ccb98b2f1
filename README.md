# shelf event sourcing, modelled in Dafny

This project models the in-process core of the event-sourcing library in
`internal/platform/cqrs` of sokool/shelf, and proves properties of that model:

- **In-memory event log** (`es.memStore`). `Append` gives each stored event a
  per-aggregate version and writes the versions back into the caller's batch.
  `FromVersion(…, 0)` returns the stored history. `Copy` re-appends part of one
  aggregate's history under another id. The table is keyed by the
  concatenation `ID + Type`.
- **Subscription builder** (`es.Subscription`). It builds topic routes
  `*.aggregate.event` (or `*.aggregate.*` for all events) and a per-aggregate
  match table, in place.
- **In-memory fan-out** (`es.memPubSub`). This is the rule by which a
  subscriber's run loop picks the events of a published batch, plus the
  subscriber list.
- **RabbitMQ adapter logic**, with the broker stripped away:
  - the attempt counter and its 1 s / 3 s back-off;
  - when the counter resets;
  - the once-only start-up gate;
  - the list of retained subscriptions, replayed after each connect;
  - publishing with routing keys, stopping at the first failure;
  - routing-key parsing on delivery.
- **Type registry**. A map from event-type name to prototype; the first
  registration wins.
- **Projection subscriptions** (`cqrs.Subscriptions`). This covers
  `Assign`/`Has`, the accept/drop decision of the delivery closure in
  `Subscriber.Subscribe`, and its route-building loop.
- **Repository and event reader**:
  - `Load` replays stored events in order into an aggregate root;
  - `Store` builds one batch from the root's uncommitted events, appends it
    and publishes it;
  - `EventReader.read` and `EventReader.Read` replay events into a handler.
- **Validation errors**. `Errors` collects the failing validators' messages
  and passes the text to `fmt.Errorf` as a format string.

The store, broker, serializer, handlers and validators are given as
function-valued parameters: deterministic oracles for the replies of code
outside the core. Where the source changes state in place, the model is a
class whose methods are proved against a pure function of the old state,
and the properties are lemmas about that function. This applies to:

- the event table;
- the subscription builder;
- the registry;
- the subscription table;
- the pub/sub subscriber lists;
- the RabbitMQ adapter's counter and gate;
- the handler logs;
- an aggregate root's uncommitted list.

Modules, one per source file:

| module | file |
|---|---|
| `Wrappers` | `Option` and `Result` |
| `Es` | `es/es.go` |
| `EsMemStore` | `es/mem_store.go` |
| `EsMemPubSub` | `es/mem_pubsub.go` |
| `EsRabbitMQ` | `es/rabbitmq_pubsub.go` |
| `Cqrs` | the types of `cqrs.go` and `serializer.go` |
| `CqrsRegistry` | `registry.go` |
| `CqrsSubscriber` | `subscriber.go` |
| `CqrsRepository` | `repository.go` |
| `CqrsReader` | `reader.go` |
| `CqrsError` | `error.go` |

Two details of the Go code that the model follows:

- **Copy filter**: `memStore.Copy` keeps source events whose version is at
  least `after` (es/mem_store.go:21-26), because it skips only those with
  version `< after`. The model does the same (`EsMemStore.Since`).
- **Publish target**: `Store` publishes its own batch value (repository.go:108-122). That value shares
  its event slice with the one `Append` received, so it carries the versions
  the store wrote back. The model publishes the batch as `append` returns it.

## Model

| member | source | states |
|---|---|---|
| EsMemStore.MemStore.Append | internal/platform/cqrs/es/mem_store.go:35-56 | The new table, the error and the written-back batch are exactly `Appended(old table, batch)`. The expected-version argument appears nowhere in the result, so it has no effect. |
| EsMemStore.AppendToNew | internal/platform/cqrs/es/mem_store.go:50-55 | For an unseen key, the batch is stored in order with versions 1..k. The written-back events differ from the input only in their versions. `Append` returns nil. |
| EsMemStore.AppendToExisting | internal/platform/cqrs/es/mem_store.go:36-47 | For a known key, the stored events stay unchanged and first. The new events follow with last+1, last+2, … in batch order, and those are the versions written back. |
| EsMemStore.AppendToEmptyEntryFails | internal/platform/cqrs/es/mem_store.go:36-38 | An entry stored with no events makes a later `Append` fail ("index out of range", where Go panics). The table is unchanged. |
| EsMemStore.AppendedFrame | internal/platform/cqrs/es/mem_store.go:45-53 | Only the entry under `ID+Type` changes; every other key keeps its entry. |
| EsMemStore.AppendedContiguous | internal/platform/cqrs/es/mem_store.go:36-54 | `Append` preserves "every stored history has versions exactly 1..n". |
| EsMemStore.AppendedAllContiguous | internal/platform/cqrs/es/mem_store.go:36-54 | After any sequence of non-empty appends to a new aggregate, its versions are exactly 1..total. |
| EsMemStore.HistoryAfterAppend | internal/platform/cqrs/es/mem_store.go:35-61 | After an append, `FromVersion(b, 0)` gives the old history plus the written batch when `b` has the same key, and is unchanged otherwise. |
| EsMemStore.KeyCollision | internal/platform/cqrs/es/mem_store.go:36-53 | The concatenated key makes two different aggregates, `("ab","c")` and `("a","bc")`, share one entry. |
| EsMemStore.MemStore.FromVersion | internal/platform/cqrs/es/mem_store.go:58-61 | For version 0 it returns the stored batch for `ID+Type`, or an empty batch, and never fails. |
| EsMemStore.SinceMembers | internal/platform/cqrs/es/mem_store.go:21-26 | The copy filter keeps exactly the source events with version ≥ `after`, in source order. |
| EsMemStore.SinceContiguous | internal/platform/cqrs/es/mem_store.go:21-26 | On a contiguous history, the filter keeps the suffix from version `after` on. |
| EsMemStore.CopyMissingSource | internal/platform/cqrs/es/mem_store.go:10-13 | A missing source gives "aggregate:src source not found" and changes nothing. |
| EsMemStore.CopyIntoNew | internal/platform/cqrs/es/mem_store.go:15-28 | A new destination receives the filtered events renumbered from 1, under `(dst, source type)`. The source is unchanged. |
| EsMemStore.CopyIntoExisting | internal/platform/cqrs/es/mem_store.go:15-28 | An existing destination keeps its events and receives the filtered events numbered after its last version. The source is unchanged unless the destination key is the source key. |
| EsMemStore.MemStore.Copy | internal/platform/cqrs/es/mem_store.go:9-29 | The new table and the error are exactly `Copied(old table, …)`. |
| EsMemStore.MemStore.constructor | internal/platform/cqrs/es/mem_store.go:31-33 | `NewMemory` starts with an empty table. |
| Es.NamedRoutes | internal/platform/cqrs/es/es.go:92-94 | One route `*.agg.e` per given name, in argument order. |
| Es.EventRoutesShape | internal/platform/cqrs/es/es.go:87-110 | With no names, exactly the one route `*.agg.*`. With k names, exactly k routes `*.agg.ei` in order. |
| Es.Route | internal/platform/cqrs/es/es.go:108-110 | A route is the three parts joined by two dots. Its length is theirs plus two, the id comes first, a dot follows it, then the aggregate, a second dot, and the event last. |
| Es.MatchSet | internal/platform/cqrs/es/es.go:96-99 | The table entry holds exactly the given names, each mapped to true; it is empty for the wildcard. |
| Es.Subscription.AggregateEvents | internal/platform/cqrs/es/es.go:87-102 | It appends the new routes after the earlier ones and replaces the entry for `agg`. Other entries and the name are untouched. |
| Es.Subscription.AddRoutes | internal/platform/cqrs/es/es.go:88-94 | It appends `EventRoutes(agg, events)` to the routes and changes neither the table nor the name. |
| Es.Subscription.SetEntry | internal/platform/cqrs/es/es.go:96-99 | It replaces the entry for `agg` with the set of `events` and changes neither the routes nor the name. |
| Es.Subscription.Name | internal/platform/cqrs/es/es.go:85 | It sets the name and changes nothing else. |
| Es.Subscription.constructor | internal/platform/cqrs/es/es.go:78-83 | `NewSubscription(h)` has no routes, an empty table and handler `h`. |
| EsMemPubSub.Run | internal/platform/cqrs/es/mem_pubsub.go:14-36 | The handler calls of the run loop are exactly `Deliveries(subscriber, stream)`. |
| EsMemPubSub.SelectedMembers | internal/platform/cqrs/es/mem_pubsub.go:27-33 | A call happens iff the event is in the batch and its type is marked true. It always carries the batch's aggregate. |
| EsMemPubSub.SelectedAppend | internal/platform/cqrs/es/mem_pubsub.go:27-33 | Selection distributes over concatenation, so batch order is kept. |
| EsMemPubSub.SelectedLength | internal/platform/cqrs/es/mem_pubsub.go:27-33 | At most one call per event, and exactly one per event when every type is marked. |
| EsMemPubSub.SelectedOne | internal/platform/cqrs/es/mem_pubsub.go:28-30 | One event is delivered iff its type is marked; unknown types are skipped. |
| EsMemPubSub.WildcardDeliversNothing | internal/platform/cqrs/es/mem_pubsub.go:22-25 | An aggregate subscribed with an empty event set (the wildcard) delivers nothing. |
| EsMemPubSub.UnknownTypesDeliverNothing | internal/platform/cqrs/es/mem_pubsub.go:17-20 | Batches whose aggregate type has no entry deliver nothing. |
| EsMemPubSub.DeliveriesAppend | internal/platform/cqrs/es/mem_pubsub.go:15-34 | The delivery of a stream is the delivery of its parts, in order. |
| EsMemPubSub.MemPubSub.Subscribe | internal/platform/cqrs/es/mem_pubsub.go:49-62 | It appends exactly one subscriber carrying the name, handler and table, keeps the earlier ones, and returns nil. |
| EsMemPubSub.MemPubSub.Publish | internal/platform/cqrs/es/mem_pubsub.go:41-47 | It always returns nil. |
| EsMemPubSub.MemPubSub.constructor | internal/platform/cqrs/es/mem_pubsub.go:37-39 | No subscribers at first. |
| EsRabbitMQ.ErrorStep | internal/platform/cqrs/es/rabbitmq_pubsub.go:147-161 | Each error adds exactly one to the counter and asks for a reconnect, after 1 s up to attempt 10 and 3 s after that. |
| EsRabbitMQ.FailureRounds | internal/platform/cqrs/es/rabbitmq_pubsub.go:147-161 | A run of n errors raises the counter by n; the i-th reply is the wait of attempt `attempts+i+1`. |
| EsRabbitMQ.BackoffSchedule | internal/platform/cqrs/es/rabbitmq_pubsub.go:150-154 | From the start, the i-th error waits 1 s for i < 10 and 3 s afterwards, as attempt i+1. |
| EsRabbitMQ.ConnectResets | internal/platform/cqrs/es/rabbitmq_pubsub.go:92-127 | From a non-zero counter: the counter returns to 0 iff the dial, the publisher channel, the exchange and the subscriber channel all succeed. Otherwise it is unchanged. |
| EsRabbitMQ.ConnectCounter | internal/platform/cqrs/es/rabbitmq_pubsub.go:92-127 | From any counter: a full connect sets it to 0, and any other connect attempt leaves it unchanged. |
| EsRabbitMQ.SetupFailureSchedulesNoRetry | internal/platform/cqrs/es/rabbitmq_pubsub.go:109-124 | A setup failure after a good dial feeds nothing to the error loop. The closed-loop reaction is that one output, with no reconnect, and the counter, gate and subscriptions are unchanged. |
| EsRabbitMQ.FedOnlyByDial | internal/platform/cqrs/es/rabbitmq_pubsub.go:95-97 | A reaction feeds the error loop iff it is a connect whose dial failed, and then it feeds exactly that dial error. |
| EsRabbitMQ.DialFailureRetries | internal/platform/cqrs/es/rabbitmq_pubsub.go:95-97 | A failed dial is retried: the closed-loop reaction counts one more attempt and schedules a reconnect after that attempt's back-off (lines 149-159). |
| EsRabbitMQ.Fed | internal/platform/cqrs/es/rabbitmq_pubsub.go:95-97 | A reaction feeds at most one error back to the error loop. |
| EsRabbitMQ.CounterWithoutReset | internal/platform/cqrs/es/rabbitmq_pubsub.go:92-159 | With no full connect, the counter is its start value plus the number of errors. |
| EsRabbitMQ.CounterAfterReset | internal/platform/cqrs/es/rabbitmq_pubsub.go:127-150 | After the last full connect, the counter equals the number of errors since then. |
| EsRabbitMQ.ConnectReplaysAll | internal/platform/cqrs/es/rabbitmq_pubsub.go:76-128 | A full connect forwards every retained subscription again, in arrival order, on the new subscriber channel. |
| EsRabbitMQ.AssignForwardsOnce | internal/platform/cqrs/es/rabbitmq_pubsub.go:72-74 | A new subscription is retained at the end and forwarded once. |
| EsRabbitMQ.RetainedInOrder | internal/platform/cqrs/es/rabbitmq_pubsub.go:68-82 | The retained list is the earlier one plus every assigned subscription in arrival order. |
| EsRabbitMQ.ForwardedGrows | internal/platform/cqrs/es/rabbitmq_pubsub.go:68-82 | Forwarding only appends; nothing forwarded is withdrawn. |
| EsRabbitMQ.GateOnce | internal/platform/cqrs/es/rabbitmq_pubsub.go:130-132 | The gate is closed iff some input was a full connect, and it is closed exactly once. |
| EsRabbitMQ.ConstructorReturns | internal/platform/cqrs/es/rabbitmq_pubsub.go:127-169 | From the start, the constructor's wait ends iff a full connect happens, and the gate closes at most once. |
| EsRabbitMQ.RunAppend | internal/platform/cqrs/es/rabbitmq_pubsub.go:84-161 | Running two input sequences one after the other is running their concatenation. |
| EsRabbitMQ.RabbitMQ.OnError | internal/platform/cqrs/es/rabbitmq_pubsub.go:147-161 | The new state and the wait are those of `Step` on an error. |
| EsRabbitMQ.RabbitMQ.OnConnect | internal/platform/cqrs/es/rabbitmq_pubsub.go:92-132 | The new state and the outcome are those of `Step` on a connect. |
| EsRabbitMQ.RabbitMQ.ConnectRound | internal/platform/cqrs/es/rabbitmq_pubsub.go:92-159 | A connect request and the error-loop turn it feeds: the new state and the outputs are those of `Closed`, with a retry wait exactly when the dial failed. |
| EsRabbitMQ.RabbitMQ.Subscribe | internal/platform/cqrs/es/rabbitmq_pubsub.go:177-181 | The new state is that of `Step` on an assignment, and it returns nil. |
| EsRabbitMQ.RabbitMQ.constructor | internal/platform/cqrs/es/rabbitmq_pubsub.go:66-170 | The counter is 0, the gate is open, and nothing is retained. |
| EsRabbitMQ.Publish | internal/platform/cqrs/es/rabbitmq_pubsub.go:183-206 | The error and the messages sent are exactly `PublishOn`: an error on a nil channel, otherwise the events in order. |
| EsRabbitMQ.PublishingPrefix | internal/platform/cqrs/es/rabbitmq_pubsub.go:188-203 | The sent messages are a batch prefix with routing key `route(ID, Type, event)` and the encoded body. All but the last were accepted. Publishing succeeds iff every event was sent and accepted. |
| EsRabbitMQ.PublishingStops | internal/platform/cqrs/es/rabbitmq_pubsub.go:188-203 | An error is either the encode error of the next event or the send error of the last message. |
| EsRabbitMQ.RabbitMQ.PublishBatch | internal/platform/cqrs/es/rabbitmq_pubsub.go:172-175 | `Publish` returns nil whatever the sending did, and sends what `publish` sends. |
| EsRabbitMQ.ParseInvertsRoute | internal/platform/cqrs/es/rabbitmq_pubsub.go:241-244 | Parsing a routing key gives back `(id, type)` when neither contains a dot. |
| EsRabbitMQ.ParseFirstTwo | internal/platform/cqrs/es/rabbitmq_pubsub.go:241-244 | A key starting with two dot-free fields parses to those two fields, whatever follows. |
| EsRabbitMQ.DottedIdMisparsed | internal/platform/cqrs/es/rabbitmq_pubsub.go:241-244 | An id containing a dot is misparsed, as the first two dot-separated fields. |
| EsRabbitMQ.SplitAtDot | internal/platform/cqrs/es/rabbitmq_pubsub.go:241 | Splitting at dots distributes over a dot. |
| EsRabbitMQ.Consume | internal/platform/cqrs/es/rabbitmq_pubsub.go:233-250 | The handler calls, and whether a routing key with fewer than two fields panics, are exactly `Consumption`. In Go that panic is not recovered and ends the process. |
| EsRabbitMQ.ConsumeRouted | internal/platform/cqrs/es/rabbitmq_pubsub.go:233-250 | For well-formed keys from dot-free aggregates, every delivery reaches the handler in order, with its own aggregate and event. |
| EsRabbitMQ.DropsUndecodable | internal/platform/cqrs/es/rabbitmq_pubsub.go:236-239 | A body that does not decode is dropped; the handler is not called. |
| CqrsRegistry.Registry.Register | internal/platform/cqrs/registry.go:21-32 | It returns nil and files the value under the name, or the derived name when the name is empty, unless that name is taken. Afterwards `Is` holds for that name. |
| CqrsRegistry.RegisterTaken | internal/platform/cqrs/registry.go:26-28 | Registering a name already present leaves the registry unchanged. |
| CqrsRegistry.RegisterExtends | internal/platform/cqrs/registry.go:26-30 | It adds at most the one key and never changes an existing prototype. |
| CqrsRegistry.RegisterAllKeys | internal/platform/cqrs/registry.go:10-19 | Registering a list adds exactly its derived names and keeps the existing entries. |
| CqrsRegistry.RegisterAllFirstWins | internal/platform/cqrs/registry.go:10-19 | For a repeated name, the earliest value in the list is kept. |
| CqrsRegistry.Registry.New | internal/platform/cqrs/registry.go:10-19 | It registers the arguments left to right; the panic branch is unreachable. |
| CqrsRegistry.Registry.Type | internal/platform/cqrs/registry.go:42-49 | For a registered name it gives the stored prototype, and otherwise it fails with "not registered". For a nil prototype, Go panics instead (see "Left out"). |
| CqrsRegistry.Registry.Is | internal/platform/cqrs/registry.go:51-54 | A name is registered iff `Type` answers `Ok` for it. Line 48 can still panic in Go for a nil prototype. |
| CqrsRegistry.Registry.Names | internal/platform/cqrs/registry.go:34-40 | Every registered key exactly once, in unspecified order. |
| CqrsRegistry.Registry.List | internal/platform/cqrs/registry.go:56-63 | Exactly one prototype per registered key. |
| CqrsSubscriber.Subscriptions.Assign | internal/platform/cqrs/subscriber.go:12-25 | It returns nil, and the new table is `Assigned(old table, aggregate, events)`. |
| CqrsSubscriber.AssignNew | internal/platform/cqrs/subscriber.go:13-15 | An unseen aggregate gets a registry of exactly the derived names, first occurrence winning. Nothing else changes. |
| CqrsSubscriber.AssignKnown | internal/platform/cqrs/subscriber.go:18-22 | A known aggregate only gains names not yet present; existing entries and other aggregates are kept. |
| CqrsSubscriber.HasAfterAssign | internal/platform/cqrs/subscriber.go:29-36 | After `Assign`, `Has` holds for an event type iff it held before or the type is one of the assigned names. |
| CqrsSubscriber.Subscriptions.Has | internal/platform/cqrs/subscriber.go:29-36 | An aggregate type without an entry is never admitted. Otherwise the answer is whether that entry's registry holds the event type. |
| CqrsSubscriber.NoEventsMatchNothing | internal/platform/cqrs/subscriber.go:13-36 | An aggregate assigned with no events matches nothing through `Has`. |
| CqrsSubscriber.AcceptRule | internal/platform/cqrs/subscriber.go:55-88 | The closure hands on an event iff its aggregate and event type are assigned and its payload decodes. Meta decode failures are ignored. The event keeps the original aggregate, type, version and time. |
| CqrsSubscriber.Deliver | internal/platform/cqrs/subscriber.go:55-90 | The projection receives exactly the accepted event, or nothing. |
| CqrsSubscriber.TablesShape | internal/platform/cqrs/subscriber.go:92-96 | The built subscription's table has one entry per assigned aggregate, holding that registry's names. |
| CqrsSubscriber.RoutesForCover | internal/platform/cqrs/subscriber.go:92-96 | Every registered name of every assigned aggregate gets its route, and an empty registry gets the wildcard route. |
| CqrsSubscriber.Subscriber.Subscribe | internal/platform/cqrs/subscriber.go:50-99 | It fills the table from the projection and builds one subscription. The name is the projection's (if any aggregate), with routes and match table per aggregate. It returns the broker's reply. |
| CqrsRepository.Repository.Load | internal/platform/cqrs/repository.go:29-74 | A store error is wrapped ("… could not load events: …") with nothing handled. Otherwise the handled events and the error are exactly `Replay` in load mode. |
| CqrsRepository.Repository.LoadEvents | internal/platform/cqrs/repository.go:40-73 | The replay loop hands on exactly `Replay`'s events in load mode and returns its error. |
| CqrsRepository.Repository.LoadEvent | internal/platform/cqrs/repository.go:41-70 | One pass of the loop hands on exactly `ReplayOne`'s events for that event and returns its error. |
| CqrsRepository.Repository.DecodeForLoad | internal/platform/cqrs/repository.go:49-66 | It decodes payload then metadata, with the "event … decoding" and "meta … decoding" errors, as `Decoded` in load mode. |
| CqrsRepository.ReplayHandlesRegisteredPrefix | internal/platform/cqrs/repository.go:40-71 | The handler gets a prefix of the registered events in stored order, each decoded with the batch aggregate and the stored type, version and time. All but the last were accepted. The replay succeeds iff all were handled and accepted. |
| CqrsRepository.ReplaySkipsUnknown | internal/platform/cqrs/repository.go:41-47 | An unregistered event is skipped without error. |
| CqrsRepository.ReplaySticks | internal/platform/cqrs/repository.go:50-70 | After the first failure, no later event is handled. |
| CqrsRepository.LoadReadAgree | internal/platform/cqrs/repository.go:54-57 | `Load` and `read` hand on the same events and fail together when no metadata is empty. |
| CqrsRepository.MetaRule | internal/platform/cqrs/repository.go:54-57 | `Load` always decodes the metadata; `read` decodes it only when it is non-empty and otherwise gives a nil map. |
| CqrsRepository.Repository.Store | internal/platform/cqrs/repository.go:76-123 | The uncommitted list is drained. The error and the published batch are exactly `Stored`. |
| CqrsRepository.BatchShape | internal/platform/cqrs/repository.go:84-106 | One stored event per uncommitted event, in order, named by its derived name, with the same meta bytes, version 0 and the one timestamp. It fails iff some event or the metadata does not encode. |
| CqrsRepository.StoreErrors | internal/platform/cqrs/repository.go:108-122 | `Store` returns nil iff the batch encodes and `Append`, given the root's version, succeeds. A publisher's presence never changes the error. A batch is published iff it was stored and a publisher is set. |
| CqrsRepository.Repository.Copy | internal/platform/cqrs/repository.go:125-127 | It forwards its arguments unchanged to the store's `Copy`. |
| CqrsReader.EventReader.ReadBatch | internal/platform/cqrs/reader.go:81-118 | The handled events and the error are exactly `Replay` in read mode. Errors come back unwrapped. |
| CqrsReader.EventReader.ReadEvent | internal/platform/cqrs/reader.go:83-110 | One pass of the loop hands on exactly `ReplayOne`'s events in read mode and returns its error. |
| CqrsReader.EventReader.DecodeForRead | internal/platform/cqrs/reader.go:89-107 | It decodes the payload, then the metadata only when non-empty, returning errors unwrapped, as `Decoded` in read mode. |
| CqrsReader.EventReader.Read | internal/platform/cqrs/reader.go:31-79 | With an id, it returns the store error or `read`'s result. Without one, it returns the `All` error, or reads every batch in turn and returns nil. |
| CqrsReader.ReadAllEachBatch | internal/platform/cqrs/reader.go:53-72 | A batch's errors never hide later batches: each batch's events follow the earlier batches'. |
| CqrsReader.ReadAllAppend | internal/platform/cqrs/reader.go:67-72 | Reading batches one after another is reading each part, in order. |
| CqrsReader.ReadAllAggregates | internal/platform/cqrs/reader.go:101-107 | Every handled event carries the aggregate of a batch that was read. |
| CqrsError.Errors | internal/platform/cqrs/error.go:18-31 | It calls every validator exactly once, left to right. The result is `ErrorsResult` of the replies. |
| CqrsError.ErrorsNil | internal/platform/cqrs/error.go:18-31 | It returns nil iff every validator passed, and in particular with no validators. |
| CqrsError.AccumulatedEmpty | internal/platform/cqrs/error.go:20-26 | The collected text is empty iff all validators passed; every failure adds at least its newline. |
| CqrsError.ErrorsText | internal/platform/cqrs/error.go:22-27 | When no failing message contains `%`, the error text is the failing messages, each followed by a newline, in argument order. |
| CqrsError.FormatPlain | internal/platform/cqrs/error.go:27 | `fmt.Errorf` of a text without `%` is that text. |
| CqrsError.FormatTrailingPercent | internal/platform/cqrs/error.go:27 | For any message without `%`, a `%` added at its end comes out as `%!(NOVERB)`. |
| CqrsError.FormatBareVerb | internal/platform/cqrs/error.go:27 | For any message without `%`, an added `%%` comes out as `%`, and an added `%` before a letter `c` as `%!c(MISSING)`. |
| CqrsError.Find | internal/platform/cqrs/error.go:27 | The plain-text run that `fmt` copies unchanged ends at the first `%` (and an argument index at the first `]`), or at the end of the text. |
| CqrsError.ErrorIsText | internal/platform/cqrs/error.go:14-16 | `DomainError.Error` returns its underlying string unchanged. |
| Cqrs.EventHandler.Handle | internal/platform/cqrs/cqrs.go:77-79 | Each call is logged in order, and the reply is the handler's verdict. |
| Cqrs.AggregateRoot.Uncommitted | internal/platform/cqrs/cqrs.go:21 | It returns the uncommitted events and clears them when asked to drain. |

## Left out

- The AMQP client is replaced by success/failure oracles (`Dial`) and a sending function. That covers dial, channels, exchange declaration, `NotifyClose` and the consume stream.
- The queue declaration and binding in `subscribe` are address plumbing with no decision of the core, so they are not modelled.
- The goroutines and channels that connect the RabbitMQ loops are modelled as one sequential `Step` per input. This leaves out the interleaving, the possible deadlock between the `read` and `subscribe` sends, and the waiting done by `time.Sleep`; waits are returned as whole seconds.
- The RabbitMQ attempt counter is an unbounded integer: Go `int` overflow after 2^63 errors is not modelled.
- `memPubSub.Publish`'s goroutine per subscriber is not modelled. `Publish` only returns nil; what a subscriber's stream receives is a parameter of `Run`.
- `EventReader.Read`'s pool of four workers over an eight-slot channel is modelled as a sequential loop. The model makes no claim about the order across aggregates under concurrency.
- memStore `FromVersion` with a version other than 0, and `All`, panic with "implement me". `EsMemStore.MemStore.FromVersion` requires version 0, and `All` is not modelled.
- `EsMemStore.MemStore.Append` returns the written-back versions as a value. It does not model the aliasing between the caller's slice and the stored one.
- mysql_store.go is not part of this model: its behaviour is SQL run by an external database.
- serializer.go's JSON encoding is a set of abstract partial functions (`Cqrs.Serializer`). Go's JSON decoder can decode part of a value before it fails; the model's decode either succeeds or fails as a whole.
- `name()` in cqrs.go uses reflection. It is modelled by its fixed cases: nil gives "" and a string gives itself. A named type gives a name carried by the value.
- `Registry.Type` builds a fresh decode target by reflection. The model returns the prototype, and decoding takes the prototype as the target's shape.
- CqrsRegistry.Registry.Type: a nil prototype is answered `Ok(Nil)`, but Go panics there. A nil value can be registered: `name(nil)` is "" (cqrs.go:126-128), so `Register` files it under "". A later `Type("")` then panics in `reflect.New(reflect.TypeOf(nil))` (registry.go:48). The model does not carry this panic into `Load`, `read` or the subscriber callback (`CqrsSubscriber.Accept`), which decode such an event. In the callback, the Go panic ends the process.
- `CqrsSubscriber.Subscriptions.Assign` stores each aggregate's registry as a map value, not as a shared `Registry` object. Aliasing of two names to one registry is not modelled.
- `CqrsSubscriber.Subscriber.Subscribe` stands for `Projection.Subscribe` by a list of `Assign` calls (`Projection.assignments`). It stands for the Go map iteration order by the key orders that `Names` and the range loop produce. The handler closure is a reference (`HandlerRef`) whose behaviour is `Deliver`.
- `CqrsError.Errors` takes the validators' replies as a list. `Validate` is foreign code, and the call log stands for the calls.
- `CqrsError.Format` models `fmt.Errorf` on a format with no operands: flags, width, precision, `%%`, argument indexes, `*`, MISSING, BADINDEX, BADWIDTH, BADPREC and NOVERB. It does not model the `%!(EXTRA …)` check, which cannot trigger because there are no operands.
- `DomainError.Args`, `Response.MarshalJSON`, `MetaFromHTTP`, test.go and es_test.go are not part of this model: they are formatting, HTTP glue or test code.
- Logging (`log.Debug`, `log.Error`) is left out, and `time.Now` is the parameter `now` of `Store`.
