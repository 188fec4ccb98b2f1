/**
 * The RabbitMQ pub/sub of package `es` (rabbitmq_pubsub.go), without the
 * AMQP client and the goroutines: the reconnection counter and its back-off,
 * the connect sequence and its once-only startup gate, the retained
 * subscription list replayed after every connect, publishing with topic
 * routing keys, and the parsing of routing keys on delivery.
 *
 * The three loops of the adapter (errors, rabbit, subscriber) exchange
 * messages over channels; here each message they act on is one `Input` to
 * a single state machine `Step`, and the broker's answers are part of the
 * input.
 */
module EsRabbitMQ {
  import opened Wrappers
  import opened Es

  /** An AMQP channel, identified by a number. */
  datatype Channel = Channel(id: nat)

  /**
   * The broker's answers to one connect attempt, in the order they are
   * asked: the dial, opening the publisher channel, declaring the `events`
   * exchange, and opening the subscriber channel.
   */
  datatype Dial = Dial(
    dial: Option<string>,
    publisherChannel: Result<Channel>,
    exchange: Option<string>,
    subscriberChannel: Result<Channel>)

  /** Every step of the connect sequence succeeds. */
  predicate FullConnect(d: Dial)
  {
    d.dial.None? && d.publisherChannel.Ok? && d.exchange.None? && d.subscriberChannel.Ok?
  }

  /** A subscription handed to the broker-side `subscribe`, with the subscriber channel of that moment. */
  datatype Forward = Forward(sub: Sub, channel: Option<Channel>)

  /**
   * The adapter's mutable state: the attempt counter, whether the
   * `sync.Once` startup gate has fired, the subscriber loop's list `ss`, the
   * log of forwarded subscriptions, and the current channels.
   */
  datatype State = State(
    attempts: int,
    started: bool,
    ss: seq<Sub>,
    forwarded: seq<Forward>,
    publisher: Option<Channel>,
    subscriber: Option<Channel>)

  /** The state the constructor starts its loops in. */
  const Initial := State(0, false, [], [], None, None)

  /** What one of the loops reacts to. */
  datatype Input =
    | ErrorReceived(err: string)   // a dial failure or a connection-close notification
    | ConnectRequested(dial: Dial) // a message on the connect channel, and the broker's answers
    | Assigned(sub: Sub)           // `Subscribe(s)`

  /** How a connect attempt ends; a dial failure is the only one that feeds the error loop. */
  datatype Outcome = DialFailed(err: string) | SetupFailed(err: string) | Connected(closedGate: bool)

  datatype Output =
    | Reconnect(wait: nat, attempt: int) // the error loop sleeps `wait` seconds, then requests a connect
    | Connect(outcome: Outcome)
    | Accepted

  /** The back-off before reconnect attempt `attempts`: one second up to ten, then three. */
  function Backoff(attempts: int): nat
  {
    if attempts > 10 then 3 else 1
  }

  /** The subscriber loop's replay: every retained subscription, in order, on channel `c`. */
  function Replay(ss: seq<Sub>, c: Option<Channel>): (r: seq<Forward>)
    ensures |r| == |ss|
    ensures forall i :: 0 <= i < |ss| ==> r[i] == Forward(ss[i], c)
  {
    seq(|ss|, i requires 0 <= i < |ss| => Forward(ss[i], c))
  }

  /** One reaction of the adapter: the new state and what it does. */
  function Step(s: State, i: Input): (State, Output)
  {
    match i
    case ErrorReceived(_) =>
      var n := s.attempts + 1;
      (s.(attempts := n), Reconnect(Backoff(n), n))
    case Assigned(sub) =>
      (s.(ss := s.ss + [sub], forwarded := s.forwarded + [Forward(sub, s.subscriber)]), Accepted)
    case ConnectRequested(d) =>
      if d.dial.Some? then
        (s, Connect(DialFailed(d.dial.value)))
      else if d.publisherChannel.Err? then
        (s.(publisher := None), Connect(SetupFailed("publisher " + d.publisherChannel.msg)))
      else if d.exchange.Some? then
        (s.(publisher := Some(d.publisherChannel.value)), Connect(SetupFailed("publisher " + d.exchange.value)))
      else if d.subscriberChannel.Err? then
        (s.(publisher := Some(d.publisherChannel.value), subscriber := None),
         Connect(SetupFailed("channel " + d.subscriberChannel.msg)))
      else
        var c := Some(d.subscriberChannel.value);
        (State(0, true, s.ss, s.forwarded + Replay(s.ss, c), Some(d.publisherChannel.value), c),
         Connect(Connected(!s.started)))
  }

  /**
   * What a reaction feeds back to the error loop: a failed dial sends its
   * error on `r.errors`; setup failures are only logged and feed nothing.
   */
  function Fed(o: Output): (f: seq<Input>)
    ensures |f| <= 1
  {
    if o.Connect? && o.outcome.DialFailed? then [ErrorReceived(o.outcome.err)] else []
  }

  /**
   * One input together with the error-loop turn it feeds, if any: the new
   * state and the outputs in the order the loops produce them.
   */
  function Closed(s: State, i: Input): (State, seq<Output>)
  {
    var t := Step(s, i);
    var f := Fed(t.1);
    if f == [] then (t.0, [t.1])
    else
      var u := Step(t.0, f[0]);
      (u.0, [t.1, u.1])
  }

  /** The adapter's reactions to a sequence of inputs, in order. */
  function Run(s: State, inputs: seq<Input>): (State, seq<Output>)
  {
    if inputs == [] then (s, [])
    else
      var r := Run(s, inputs[..|inputs| - 1]);
      var t := Step(r.0, inputs[|inputs| - 1]);
      (t.0, r.1 + [t.1])
  }

  predicate IsFullConnect(i: Input)
  {
    i.ConnectRequested? && FullConnect(i.dial)
  }

  /** The number of errors among the inputs. */
  function CountErrors(inputs: seq<Input>): nat
  {
    if inputs == [] then 0
    else CountErrors(inputs[..|inputs| - 1]) + (if inputs[|inputs| - 1].ErrorReceived? then 1 else 0)
  }

  /** The subscriptions assigned among the inputs, in order. */
  function AssignedSubs(inputs: seq<Input>): seq<Sub>
  {
    if inputs == [] then []
    else AssignedSubs(inputs[..|inputs| - 1]) + (if inputs[|inputs| - 1].Assigned? then [inputs[|inputs| - 1].sub] else [])
  }

  /** The number of times the outputs report the startup gate closing. */
  function GateCloses(outs: seq<Output>): nat
  {
    if outs == [] then 0
    else
      var o := outs[|outs| - 1];
      GateCloses(outs[..|outs| - 1]) + (if ClosesGate(o) then 1 else 0)
  }

  // ---------------------------------------------------------------- lemmas about one step

  /** Each error raises the counter by exactly one and waits 1s for attempts 1-10, 3s after. */
  lemma ErrorStep(s: State, e: string)
    ensures Step(s, ErrorReceived(e)).0 == s.(attempts := s.attempts + 1)
    ensures Step(s, ErrorReceived(e)).1.wait == (if s.attempts + 1 <= 10 then 1 else 3)
  {
  }

  /** A connect attempt resets the counter if and only if the whole connect sequence succeeds. */
  lemma ConnectResets(s: State, d: Dial)
    requires s.attempts != 0
    ensures Step(s, ConnectRequested(d)).0.attempts == 0 <==> FullConnect(d)
    ensures !FullConnect(d) ==> Step(s, ConnectRequested(d)).0.attempts == s.attempts
  {
    ConnectCounter(s, d);
  }

  /** From any counter: a full connect sets it to 0, and any other connect attempt leaves it as it was. */
  lemma ConnectCounter(s: State, d: Dial)
    ensures FullConnect(d) ==> Step(s, ConnectRequested(d)).0.attempts == 0
    ensures !FullConnect(d) ==> Step(s, ConnectRequested(d)).0.attempts == s.attempts
  {
  }

  /** Only a failed dial feeds the error loop; no other reaction of the adapter does. */
  lemma FedOnlyByDial(s: State, i: Input)
    ensures Fed(Step(s, i).1) != [] <==> i.ConnectRequested? && i.dial.dial.Some?
    ensures i.ConnectRequested? && i.dial.dial.Some? ==> Fed(Step(s, i).1) == [ErrorReceived(i.dial.dial.value)]
  {
  }

  /**
   * A failed dial is retried: its error reaches the error loop, which counts
   * the attempt and schedules a reconnect after the attempt's back-off.
   */
  lemma DialFailureRetries(s: State, d: Dial)
    requires d.dial.Some?
    ensures Closed(s, ConnectRequested(d)).0 == s.(attempts := s.attempts + 1)
    ensures Closed(s, ConnectRequested(d)).1 ==
      [Connect(DialFailed(d.dial.value)), Reconnect(Backoff(s.attempts + 1), s.attempts + 1)]
  {
  }

  /**
   * Setup failures after a successful dial are only logged: no error is fed
   * back, so no retry is scheduled, and the gate, counter and retained list
   * stay as they were.
   */
  lemma SetupFailureSchedulesNoRetry(s: State, d: Dial)
    requires d.dial.None? && !FullConnect(d)
    ensures Step(s, ConnectRequested(d)).1.outcome.SetupFailed?
    ensures Fed(Step(s, ConnectRequested(d)).1) == []
    ensures Closed(s, ConnectRequested(d)) == (Step(s, ConnectRequested(d)).0, [Step(s, ConnectRequested(d)).1])
    ensures forall o :: o in Closed(s, ConnectRequested(d)).1 ==> !o.Reconnect?
    ensures var t := Step(s, ConnectRequested(d)).0;
      t.attempts == s.attempts && t.started == s.started && t.ss == s.ss && t.forwarded == s.forwarded
  {
  }

  /** After a full connect every retained subscription is forwarded again, in order, on the new channel. */
  lemma ConnectReplaysAll(s: State, d: Dial)
    requires FullConnect(d)
    ensures var t := Step(s, ConnectRequested(d)).0;
      t.subscriber == Some(d.subscriberChannel.value) && t.ss == s.ss &&
      |t.forwarded| == |s.forwarded| + |s.ss| && t.forwarded[..|s.forwarded|] == s.forwarded &&
      forall i :: 0 <= i < |s.ss| ==> t.forwarded[|s.forwarded| + i] == Forward(s.ss[i], t.subscriber)
  {
  }

  /** An assigned subscription is retained at the end of the list and forwarded once, at once. */
  lemma AssignForwardsOnce(s: State, sub: Sub)
    ensures Step(s, Assigned(sub)).0.ss == s.ss + [sub]
    ensures Step(s, Assigned(sub)).0.forwarded == s.forwarded + [Forward(sub, s.subscriber)]
  {
  }

  // ---------------------------------------------------------------- lemmas about runs

  /** Running two input sequences one after the other is running their concatenation. */
  lemma {:induction false} RunAppend(s: State, x: seq<Input>, y: seq<Input>)
    ensures Run(s, x + y).0 == Run(Run(s, x).0, y).0
    ensures Run(s, x + y).1 == Run(s, x).1 + Run(Run(s, x).0, y).1
    decreases |y|
  {
    if y == [] {
      assert x + y == x;
    } else {
      var y' := y[..|y| - 1];
      assert (x + y)[..|x + y| - 1] == x + y';
      assert (x + y)[|x + y| - 1] == y[|y| - 1];
      RunAppend(s, x, y');
    }
  }

  /** One output per input. */
  lemma {:induction false} RunLength(s: State, inputs: seq<Input>)
    ensures |Run(s, inputs).1| == |inputs|
  {
    if inputs != [] {
      RunLength(s, inputs[..|inputs| - 1]);
    }
  }

  /** Without a full connect, the counter only grows, by one per error. */
  lemma {:induction false} CounterWithoutReset(s: State, inputs: seq<Input>)
    requires forall i :: 0 <= i < |inputs| ==> !IsFullConnect(inputs[i])
    ensures Run(s, inputs).0.attempts == s.attempts + CountErrors(inputs)
  {
    if inputs != [] {
      CounterWithoutReset(s, inputs[..|inputs| - 1]);
    }
  }

  /** After a full connect the counter restarts: it counts the errors since the last one. */
  lemma CounterAfterReset(s: State, pre: seq<Input>, d: Dial, post: seq<Input>)
    requires FullConnect(d)
    requires forall i :: 0 <= i < |post| ==> !IsFullConnect(post[i])
    ensures Run(s, pre + [ConnectRequested(d)] + post).0.attempts == CountErrors(post)
  {
    RunAppend(s, pre + [ConnectRequested(d)], post);
    RunAppend(s, pre, [ConnectRequested(d)]);
    assert [ConnectRequested(d)][..0] == [];
    CounterWithoutReset(Run(s, pre + [ConnectRequested(d)]).0, post);
  }

  /** A run of consecutive errors: the i-th waits the back-off of attempt `attempts + i + 1`. */
  lemma {:induction false} FailureRounds(s: State, inputs: seq<Input>)
    requires forall i :: 0 <= i < |inputs| ==> inputs[i].ErrorReceived?
    ensures Run(s, inputs).0.attempts == s.attempts + |inputs|
    ensures |Run(s, inputs).1| == |inputs|
    ensures forall i :: 0 <= i < |inputs| ==>
      Run(s, inputs).1[i] == Reconnect(Backoff(s.attempts + i + 1), s.attempts + i + 1)
  {
    if inputs != [] {
      FailureRounds(s, inputs[..|inputs| - 1]);
    }
  }

  /** From a fresh counter, ten errors wait one second each and every later one three seconds. */
  lemma BackoffSchedule(inputs: seq<Input>)
    requires forall i :: 0 <= i < |inputs| ==> inputs[i].ErrorReceived?
    ensures |Run(Initial, inputs).1| == |inputs|
    ensures forall i :: 0 <= i < |inputs| ==> Run(Initial, inputs).1[i] == Reconnect(if i < 10 then 1 else 3, i + 1)
  {
    FailureRounds(Initial, inputs);
  }

  /** Every assigned subscription is retained, in arrival order; nothing removes one. */
  lemma {:induction false} RetainedInOrder(s: State, inputs: seq<Input>)
    ensures Run(s, inputs).0.ss == s.ss + AssignedSubs(inputs)
  {
    if inputs != [] {
      RetainedInOrder(s, inputs[..|inputs| - 1]);
    }
  }

  /** The forwarded log only grows. */
  lemma {:induction false} ForwardedGrows(s: State, inputs: seq<Input>)
    ensures |s.forwarded| <= |Run(s, inputs).0.forwarded|
    ensures Run(s, inputs).0.forwarded[..|s.forwarded|] == s.forwarded
  {
    if inputs != [] {
      var r := Run(s, inputs[..|inputs| - 1]).0;
      ForwardedGrows(s, inputs[..|inputs| - 1]);
      var t := Step(r, inputs[|inputs| - 1]).0;
      assert t.forwarded[..|r.forwarded|] == r.forwarded;
      assert t.forwarded[..|s.forwarded|] == r.forwarded[..|s.forwarded|];
    }
  }

  /** Whether an output reports the startup gate closing. */
  predicate ClosesGate(o: Output)
  {
    o.Connect? && o.outcome.Connected? && o.outcome.closedGate
  }

  /** One step fires the gate exactly on a full connect while it is still open. */
  lemma StepGate(s: State, i: Input)
    ensures Step(s, i).0.started == (s.started || IsFullConnect(i))
    ensures ClosesGate(Step(s, i).1) == (IsFullConnect(i) && !s.started)
  {
  }

  /**
   * The startup gate: it has fired after a run exactly when it had before
   * or some input was a full connect, and over the run it is reported
   * closing once if it fired during the run, and never otherwise.
   */
  lemma {:induction false} GateOnce(s: State, inputs: seq<Input>)
    ensures Run(s, inputs).0.started <==> s.started || exists i :: 0 <= i < |inputs| && IsFullConnect(inputs[i])
    ensures GateCloses(Run(s, inputs).1) == if Run(s, inputs).0.started && !s.started then 1 else 0
  {
    if inputs != [] {
      var init := inputs[..|inputs| - 1];
      var last := inputs[|inputs| - 1];
      GateOnce(s, init);
      var r := Run(s, init);
      StepGate(r.0, last);
      var t := Step(r.0, last);
      assert Run(s, inputs) == (t.0, r.1 + [t.1]);
      assert (r.1 + [t.1])[..|r.1|] == r.1;
      assert GateCloses(r.1 + [t.1]) == GateCloses(r.1) + (if ClosesGate(t.1) then 1 else 0);
      assert (exists i :: 0 <= i < |inputs| && IsFullConnect(inputs[i])) <==>
             (exists i :: 0 <= i < |init| && IsFullConnect(init[i])) || IsFullConnect(last) by {
        if exists i :: 0 <= i < |inputs| && IsFullConnect(inputs[i]) {
          var i :| 0 <= i < |inputs| && IsFullConnect(inputs[i]);
          if i < |init| {
            assert init[i] == inputs[i];
          }
        }
        if exists i :: 0 <= i < |init| && IsFullConnect(init[i]) {
          var i :| 0 <= i < |init| && IsFullConnect(init[i]);
          assert inputs[i] == init[i];
        }
      }
    }
  }

  /** Startup: the constructor returns (the gate fires) exactly when some connect fully succeeds, and only once. */
  lemma ConstructorReturns(inputs: seq<Input>)
    ensures Run(Initial, inputs).0.started <==> exists i :: 0 <= i < |inputs| && IsFullConnect(inputs[i])
    ensures GateCloses(Run(Initial, inputs).1) <= 1
  {
    GateOnce(Initial, inputs);
  }

  // ---------------------------------------------------------------- publishing

  /** One AMQP publishing: routing key and JSON body. */
  datatype Message = Message(key: string, body: Bytes)

  /** How `publish` ends: its error, and every publishing it handed to the channel, in order. */
  datatype Published = Published(err: Option<string>, attempted: seq<Message>)

  /**
   * `publish(a, p)` on the events `evs` of `a`: for each event in order,
   * encode it and send it with routing key `route(ID, Type, event type)`,
   * stopping at the first encode or send failure.
   */
  function Publishing(a: Aggregate, c: Channel, evs: seq<Event>,
                      encode: Event -> Result<Bytes>, send: (Channel, Message) -> Option<string>): Published
  {
    if evs == [] then Published(None, [])
    else
      var r := Publishing(a, c, evs[..|evs| - 1], encode, send);
      var e := evs[|evs| - 1];
      if r.err.Some? then r
      else if encode(e).Err? then Published(Some(encode(e).msg), r.attempted)
      else
        var m := Message(Route(a.id, a.typ, e.typ), encode(e).value);
        Published(send(c, m), r.attempted + [m])
  }

  /** A nil publisher channel is an error; otherwise the batch is published as `Publishing` says. */
  function PublishOn(ae: AggregateEvents, p: Option<Channel>,
                     encode: Event -> Result<Bytes>, send: (Channel, Message) -> Option<string>): Published
  {
    if p.None? then Published(Some("empty publisher channel"), [])
    else Publishing(ae.aggregate, p.value, ae.events, encode, send)
  }

  /**
   * What is published: a prefix of the batch, in batch order, each with its
   * route as key; every publishing but the last attempted one succeeded; and
   * there is no error exactly when every event was encoded and sent.
   */
  lemma {:induction false} PublishingPrefix(a: Aggregate, c: Channel, evs: seq<Event>,
                                            encode: Event -> Result<Bytes>, send: (Channel, Message) -> Option<string>)
    ensures var r := Publishing(a, c, evs, encode, send);
      |r.attempted| <= |evs| &&
      (forall i :: 0 <= i < |r.attempted| ==>
        encode(evs[i]).Ok? && r.attempted[i] == Message(Route(a.id, a.typ, evs[i].typ), encode(evs[i]).value)) &&
      (forall i :: 0 <= i < |r.attempted| - 1 ==> send(c, r.attempted[i]) == None) &&
      (r.err == None <==>
        |r.attempted| == |evs| && forall i :: 0 <= i < |r.attempted| ==> send(c, r.attempted[i]) == None)
  {
    if evs != [] {
      PublishingPrefix(a, c, evs[..|evs| - 1], encode, send);
    }
  }

  /** The first failure decides the error: an encode error of the next event, or the last send's error. */
  lemma {:induction false} PublishingStops(a: Aggregate, c: Channel, evs: seq<Event>,
                                           encode: Event -> Result<Bytes>, send: (Channel, Message) -> Option<string>)
    ensures var r := Publishing(a, c, evs, encode, send);
      r.err.Some? ==>
        (|r.attempted| < |evs| && encode(evs[|r.attempted|]).Err? && r.err == Some(encode(evs[|r.attempted|]).msg)) ||
        (|r.attempted| > 0 && r.err == send(c, r.attempted[|r.attempted| - 1]))
  {
    if evs != [] {
      var init := evs[..|evs| - 1];
      PublishingStops(a, c, init, encode, send);
      PublishingPrefix(a, c, init, encode, send);
      var r := Publishing(a, c, init, encode, send);
      if r.err.Some? && |r.attempted| < |init| {
        assert evs[|r.attempted|] == init[|r.attempted|];
      }
    }
  }

  /** Once publishing has failed, later events change nothing. */
  lemma {:induction false} PublishingSticks(a: Aggregate, c: Channel, evs: seq<Event>, k: nat,
                                            encode: Event -> Result<Bytes>, send: (Channel, Message) -> Option<string>)
    requires k <= |evs| && Publishing(a, c, evs[..k], encode, send).err.Some?
    ensures Publishing(a, c, evs, encode, send) == Publishing(a, c, evs[..k], encode, send)
    decreases |evs| - k
  {
    if k < |evs| {
      assert evs[..k + 1][..k] == evs[..k];
      PublishingSticks(a, c, evs, k + 1, encode, send);
    } else {
      assert evs[..k] == evs;
    }
  }

  /** The internal `publish`: the loop over the batch with its early returns. */
  method Publish(ae: AggregateEvents, p: Option<Channel>,
                 encode: Event -> Result<Bytes>, send: (Channel, Message) -> Option<string>)
    returns (err: Option<string>, attempted: seq<Message>)
    ensures Published(err, attempted) == PublishOn(ae, p, encode, send)
  {
    if p.None? {
      return Some("empty publisher channel"), [];
    }
    var c := p.value;
    attempted := [];
    var i := 0;
    while i < |ae.events|
      invariant 0 <= i <= |ae.events|
      invariant Published(None, attempted) == Publishing(ae.aggregate, c, ae.events[..i], encode, send)
    {
      var e := ae.events[i];
      assert ae.events[..i + 1][..i] == ae.events[..i];
      var b := encode(e);
      if b.Err? {
        PublishingSticks(ae.aggregate, c, ae.events, i + 1, encode, send);
        return Some(b.msg), attempted;
      }
      var m := Message(Route(ae.aggregate.id, ae.aggregate.typ, e.typ), b.value);
      attempted := attempted + [m];
      err := send(c, m);
      if err.Some? {
        PublishingSticks(ae.aggregate, c, ae.events, i + 1, encode, send);
        return err, attempted;
      }
      i := i + 1;
    }
    assert ae.events[..i] == ae.events;
    err := None;
  }

  // ---------------------------------------------------------------- delivery

  /** `strings.Split(s, ".")`: the dot-separated fields of `s`, always at least one. */
  function SplitDots(s: string): (r: seq<string>)
    ensures |r| >= 1
  {
    if s == [] then [""]
    else
      var f := SplitDots(s[..|s| - 1]);
      var ch := s[|s| - 1];
      if ch == '.' then f + [""] else f[..|f| - 1] + [f[|f| - 1] + [ch]]
  }

  /** A string with no dot is its own only field. */
  lemma {:induction false} SplitNoDot(s: string)
    requires '.' !in s
    ensures SplitDots(s) == [s]
  {
    if s != [] {
      SplitNoDot(s[..|s| - 1]);
      assert s[..|s| - 1] + [s[|s| - 1]] == s;
    }
  }

  /** Appending one character: a dot opens a new field, any other extends the last one. */
  lemma SplitSnoc(s: string, ch: char)
    ensures var f := SplitDots(s);
      SplitDots(s + [ch]) == if ch == '.' then f + [""] else f[..|f| - 1] + [f[|f| - 1] + [ch]]
  {
    assert (s + [ch])[..|s|] == s;
  }

  /** Splitting at a dot: the fields of `x + "." + y` are the fields of `x` followed by those of `y`. */
  lemma {:induction false} SplitAtDot(x: string, y: string)
    ensures SplitDots(x + "." + y) == SplitDots(x) + SplitDots(y)
    decreases |y|
  {
    var t := x + "." + y;
    if y == [] {
      assert t == x + ['.'];
      SplitSnoc(x, '.');
    } else {
      var y' := y[..|y| - 1];
      var ch := y[|y| - 1];
      var s := x + "." + y';
      assert t == s + [ch];
      assert y == y' + [ch];
      SplitAtDot(x, y');
      SplitSnoc(s, ch);
      SplitSnoc(y', ch);
      SplitTail(SplitDots(x), SplitDots(y'), ch);
    }
  }

  /** The field bookkeeping of the step above, on plain sequences of fields. */
  lemma SplitTail(fx: seq<string>, g: seq<string>, ch: char)
    requires |g| >= 1
    ensures var f := fx + g;
      (if ch == '.' then f + [""] else f[..|f| - 1] + [f[|f| - 1] + [ch]])
      == fx + (if ch == '.' then g + [""] else g[..|g| - 1] + [g[|g| - 1] + [ch]])
  {
    var f := fx + g;
    if ch != '.' {
      assert f[..|f| - 1] == fx + g[..|g| - 1];
    }
  }

  /** The aggregate a delivery's routing key names: its first two fields; None where `rk[1]` would panic. */
  function ParseRoutingKey(rk: string): (r: Option<Aggregate>)
  {
    var f := SplitDots(rk);
    if |f| < 2 then None else Some(Aggregate(f[0], f[1]))
  }

  /** A key whose first two fields hold no dot parses to those two fields, whatever follows. */
  lemma ParseFirstTwo(id: string, typ: string, rest: string)
    requires '.' !in id && '.' !in typ
    ensures ParseRoutingKey(id + "." + typ + "." + rest) == Some(Aggregate(id, typ))
  {
    SplitAtDot(id + "." + typ, rest);
    SplitAtDot(id, typ);
    SplitNoDot(id);
    SplitNoDot(typ);
  }

  /** Parsing inverts `route` when the id and the type hold no dot, whatever the event type. */
  lemma ParseInvertsRoute(id: string, typ: string, ev: string)
    requires '.' !in id && '.' !in typ
    ensures ParseRoutingKey(Route(id, typ, ev)) == Some(Aggregate(id, typ))
  {
    ParseFirstTwo(id, typ, ev);
  }

  /** A dotted id is cut at its first dot: the event is delivered for a different aggregate. */
  lemma DottedIdMisparsed()
    ensures ParseRoutingKey(Route("a.b", "T", "E")) == Some(Aggregate("a", "b"))
    ensures ParseRoutingKey(Route("a.b", "T", "E")) != Some(Aggregate("a.b", "T"))
  {
    var id, typ, rest := "a", "b", "T.E";
    assert '.' !in id && '.' !in typ;
    assert Route("a.b", "T", "E") == id + "." + typ + "." + rest;
    ParseFirstTwo(id, typ, rest);
  }

  /** One AMQP delivery: routing key and body. */
  datatype Delivered = Delivered(routingKey: string, body: Bytes)

  /** How the delivery loop ends: the handler calls made, and whether it panicked on a routing key. */
  datatype Consumed = Consumed(calls: seq<Delivery>, panicked: bool)

  /**
   * The delivery loop of `subscribe`: a body that does not decode is dropped
   * before the routing key is looked at; otherwise the handler is called
   * with the aggregate parsed from the key; a key with fewer than two fields
   * panics. The panic is not recovered, so in Go it ends the whole process;
   * here it ends the sequence of handler calls and is reported as `panicked`.
   */
  function Consumption(ds: seq<Delivered>, decode: Bytes -> Result<Event>): Consumed
  {
    if ds == [] then Consumed([], false)
    else
      var r := Consumption(ds[..|ds| - 1], decode);
      var d := ds[|ds| - 1];
      if r.panicked || decode(d.body).Err? then r
      else if ParseRoutingKey(d.routingKey).None? then Consumed(r.calls, true)
      else Consumed(r.calls + [(ParseRoutingKey(d.routingKey).value, decode(d.body).value)], false)
  }

  /** Delivery `d` decodes, and its key was composed by `route` from the dot-free id and type of `o`. */
  predicate RoutedFrom(d: Delivered, decode: Bytes -> Result<Event>, o: Aggregate)
  {
    '.' !in o.id && '.' !in o.typ &&
    decode(d.body).Ok? && d.routingKey == Route(o.id, o.typ, decode(d.body).value.typ)
  }

  /** If every key was composed by `route` from dot-free ids and types, nothing panics and each decodable body reaches the handler with its aggregate. */
  lemma {:induction false} ConsumeRouted(ds: seq<Delivered>, decode: Bytes -> Result<Event>, origin: seq<Aggregate>)
    requires |origin| == |ds|
    requires forall i :: 0 <= i < |ds| ==> RoutedFrom(ds[i], decode, origin[i])
    ensures !Consumption(ds, decode).panicked
    ensures |Consumption(ds, decode).calls| == |ds|
    ensures forall i :: 0 <= i < |ds| ==>
      decode(ds[i].body).Ok? && Consumption(ds, decode).calls[i] == (origin[i], decode(ds[i].body).value)
  {
    if ds != [] {
      var n := |ds| - 1;
      var init, before := ds[..n], origin[..n];
      forall i | 0 <= i < n
        ensures RoutedFrom(init[i], decode, before[i])
      {
        assert init[i] == ds[i] && before[i] == origin[i];
      }
      ConsumeRouted(init, decode, before);
      assert RoutedFrom(ds[n], decode, origin[n]);
      ParseInvertsRoute(origin[n].id, origin[n].typ, decode(ds[n].body).value.typ);
      var r := Consumption(init, decode);
      var c := Consumed(r.calls + [(origin[n], decode(ds[n].body).value)], false);
      assert Consumption(ds, decode) == c;
      forall i | 0 <= i < |ds|
        ensures decode(ds[i].body).Ok? && c.calls[i] == (origin[i], decode(ds[i].body).value)
      {
        assert RoutedFrom(ds[i], decode, origin[i]);
        if i < n {
          assert init[i] == ds[i] && before[i] == origin[i];
        }
      }
    }
  }

  /** A delivery whose body does not decode adds no handler call. */
  lemma DropsUndecodable(ds: seq<Delivered>, d: Delivered, decode: Bytes -> Result<Event>)
    requires decode(d.body).Err?
    ensures Consumption(ds + [d], decode) == Consumption(ds, decode)
  {
    assert (ds + [d])[..|ds|] == ds;
  }

  /** After a panic, later deliveries change nothing. */
  lemma {:induction false} ConsumptionSticks(ds: seq<Delivered>, k: nat, decode: Bytes -> Result<Event>)
    requires k <= |ds| && Consumption(ds[..k], decode).panicked
    ensures Consumption(ds, decode) == Consumption(ds[..k], decode)
    decreases |ds| - k
  {
    if k < |ds| {
      assert ds[..k + 1][..k] == ds[..k];
      ConsumptionSticks(ds, k + 1, decode);
    } else {
      assert ds[..k] == ds;
    }
  }

  /** The delivery goroutine's loop over the deliveries, calling the handler. */
  method Consume(ds: seq<Delivered>, decode: Bytes -> Result<Event>) returns (calls: seq<Delivery>, panicked: bool)
    ensures Consumed(calls, panicked) == Consumption(ds, decode)
  {
    calls, panicked := [], false;
    var i := 0;
    while i < |ds|
      invariant 0 <= i <= |ds|
      invariant Consumed(calls, false) == Consumption(ds[..i], decode)
    {
      var d := ds[i];
      assert ds[..i + 1][..i] == ds[..i];
      var e := decode(d.body);
      if e.Err? {
        i := i + 1;
        continue;
      }
      var rk := SplitDots(d.routingKey);
      if |rk| < 2 {
        ConsumptionSticks(ds, i + 1, decode);
        return calls, true;
      }
      calls := calls + [(Aggregate(rk[0], rk[1]), e.value)];
      i := i + 1;
    }
    assert ds[..i] == ds;
  }

  // ---------------------------------------------------------------- the adapter

  /** The adapter's state as the three loops share it. */
  class RabbitMQ {
    var attempts: int
    var started: bool
    var ss: seq<Sub>
    var forwarded: seq<Forward>
    var publisher: Option<Channel>
    var subscriber: Option<Channel>

    function Snapshot(): State
      reads this
    {
      State(attempts, started, ss, forwarded, publisher, subscriber)
    }

    /** `NewRabbitMQPubSub`: the loops start from a zero counter, no channels and no subscriptions. */
    constructor ()
      ensures Snapshot() == Initial
    {
      attempts, started, ss, forwarded, publisher, subscriber := 0, false, [], [], None, None;
    }

    /** One turn of the error loop: count the attempt and return the seconds to wait before reconnecting. */
    method OnError(e: string) returns (wait: nat)
      modifies this
      ensures Snapshot() == Step(old(Snapshot()), ErrorReceived(e)).0
      ensures Reconnect(wait, attempts) == Step(old(Snapshot()), ErrorReceived(e)).1
    {
      attempts := attempts + 1;
      wait := 1;
      if attempts > 10 {
        wait := 3;
      }
    }

    /** The connect case of the rabbit loop, given the broker's answers. */
    method OnConnect(d: Dial) returns (outcome: Outcome)
      modifies this
      ensures Snapshot() == Step(old(Snapshot()), ConnectRequested(d)).0
      ensures Connect(outcome) == Step(old(Snapshot()), ConnectRequested(d)).1
    {
      if d.dial.Some? {
        return DialFailed(d.dial.value);
      }
      if d.publisherChannel.Err? {
        publisher := None;
        return SetupFailed("publisher " + d.publisherChannel.msg);
      }
      publisher := Some(d.publisherChannel.value);
      if d.exchange.Some? {
        return SetupFailed("publisher " + d.exchange.value);
      }
      if d.subscriberChannel.Err? {
        subscriber := None;
        return SetupFailed("channel " + d.subscriberChannel.msg);
      }
      subscriber := Some(d.subscriberChannel.value);
      attempts := 0;
      var i := 0;
      while i < |ss|
        invariant 0 <= i <= |ss|
        invariant forwarded == old(forwarded) + Replay(ss[..i], subscriber)
        invariant ss == old(ss) && started == old(started) && attempts == 0
        invariant publisher == Some(d.publisherChannel.value) && subscriber == Some(d.subscriberChannel.value)
      {
        assert Replay(ss[..i + 1], subscriber) == Replay(ss[..i], subscriber) + [Forward(ss[i], subscriber)];
        forwarded := forwarded + [Forward(ss[i], subscriber)];
        i := i + 1;
      }
      assert ss[..i] == ss;
      outcome := Connected(!started);
      started := true;
    }

    /**
     * A connect request as the loops handle it: the rabbit loop's connect
     * case, then, when the dial failed, the error loop's turn on that error,
     * which returns the wait before the next attempt.
     */
    method ConnectRound(d: Dial) returns (outcome: Outcome, retry: Option<nat>)
      modifies this
      ensures Snapshot() == Closed(old(Snapshot()), ConnectRequested(d)).0
      ensures Closed(old(Snapshot()), ConnectRequested(d)).1 ==
        [Connect(outcome)] + (if retry.Some? then [Reconnect(retry.value, attempts)] else [])
    {
      outcome := OnConnect(d);
      retry := None;
      if outcome.DialFailed? {
        var wait := OnError(outcome.err);
        retry := Some(wait);
      }
    }

    /** `Subscribe(s)` and the subscriber loop's assign case: retain `s`, forward it once; never fails. */
    method Subscribe(s: Sub) returns (err: Option<string>)
      modifies this
      ensures Snapshot() == Step(old(Snapshot()), Assigned(s)).0
      ensures err == None
    {
      ss := ss + [s];
      forwarded := forwarded + [Forward(s, subscriber)];
      err := None;
    }

    /**
     * `Publish(a)` and the rabbit loop's publish case: the batch is published
     * on the current publisher channel; its error is only logged, so the
     * caller always gets nil.
     */
    method PublishBatch(a: AggregateEvents, encode: Event -> Result<Bytes>, send: (Channel, Message) -> Option<string>)
      returns (err: Option<string>, attempted: seq<Message>)
      ensures err == None
      ensures attempted == PublishOn(a, publisher, encode, send).attempted
    {
      var logged;
      logged, attempted := Publish(a, publisher, encode, send);
      err := None;
    }
  }
}
