/** The live count of consumers on one destination, kept by listening to
    the broker's consumer advisories: an added consumer counts up by one, a
    removed consumer counts down by one, and each change is reported to the
    listener with the count the advisory itself carries when it carries
    one. */
module ConsumerEvents {
  import opened Jms

  /** The kind of id a removal advisory names. */
  datatype ObjectId =
    | ConsumerId(value: nat)
    | ProducerId(value: nat)
    | SessionId(value: nat)
    | ConnectionId(value: nat)

  /** The command an advisory message carries as its data structure. */
  datatype Command =
    | ConsumerInfo(consumerId: nat)
    | RemoveInfo(objectId: ObjectId)
    | OtherCommand
    | NoCommand

  /** `isConsumerRemove()`: the removed object is a consumer. */
  predicate IsConsumerRemove(c: Command)
    requires c.RemoveInfo?
  {
    c.objectId.ConsumerId?
  }

  /** A message delivered to the event source: a native message with its
      data structure, or a message of another provider. Either way,
      `consumerCountProperty` is what `getObjectProperty("consumerCount")`
      gives: a value (null when absent) or a thrown exception. */
  datatype AdvisoryMessage =
    | NonNative(consumerCountProperty: Result<Value>)
    | Native(dataStructure: Command, consumerCountProperty: Result<Value>)

  /** A consumer started or stopped on the destination, with the count
      reported for it. */
  datatype ConsumerEvent =
    | ConsumerStarted(destination: Destination, consumerId: nat, count: int32)
    | ConsumerStopped(destination: Destination, removed: ObjectId, count: int32)

  /** The listener a source hands its events to, known by identity. */
  datatype ConsumerListener = ConsumerListener(handle: nat)

  /** An event handed to a listener. */
  datatype Delivery = Delivery(listener: ConsumerListener, event: ConsumerEvent)

  datatype SessionHandle = SessionHandle(handle: nat)
  datatype ConsumerHandle = ConsumerHandle(handle: nat)

  /** An advisory consumer opened by `start`, in a session of its own. */
  datatype Subscription = Subscription(session: SessionHandle, consumer: ConsumerHandle)

  /** What the connection does when `start` asks it for a session and an
      advisory consumer: both are created, or one of the two calls throws. */
  datatype SubscribeOutcome =
    | Subscribed(session: SessionHandle, consumer: ConsumerHandle)
    | SessionRefused(error: JmsError)
    | ConsumerRefused(session: SessionHandle, refusal: JmsError)

  /** The advisory reports an added consumer. */
  predicate IsAdded(m: AdvisoryMessage) {
    m.Native? && m.dataStructure.ConsumerInfo?
  }

  /** The advisory reports a removed consumer. */
  predicate IsRemoved(m: AdvisoryMessage) {
    m.Native? && m.dataStructure.RemoveInfo? && IsConsumerRemove(m.dataStructure)
  }

  /** The message carries a numeric `consumerCount` property. */
  predicate CarriesCount(m: AdvisoryMessage) {
    m.consumerCountProperty.Ok? && IsNumber(m.consumerCountProperty.value)
  }

  /** `extractConsumerCountFromMessage`: the `int` value of a numeric
      `consumerCount` property; the local `count` when the property is
      absent, not a number or cannot be read. */
  function ExtractConsumerCount(m: AdvisoryMessage, count: int32): (r: int32)
    ensures CarriesCount(m) ==> r == IntValue(m.consumerCountProperty.value)
    ensures !CarriesCount(m) ==> r == count
  {
    match m.consumerCountProperty
    case Err(_) => count
    case Ok(value) => if IsNumber(value) then IntValue(value) else count
  }

  /** The effect of one advisory: the new local count and the event to
      fire, if any. */
  datatype Reaction = Reaction(count: int32, event: Option<ConsumerEvent>)

  /** What `onMessage` does with the local count `count`: an added consumer
      moves it up by one and a consumer removal down by one (in `int`
      arithmetic, with no lower bound), each firing one event whose count is
      the advisory's own count if it carries one and the new local count
      otherwise; any other message leaves the count alone and fires
      nothing. */
  function Advise(count: int32, destination: Destination, m: AdvisoryMessage): (r: Reaction)
    ensures IsAdded(m) ==> r.count == Wrap32(count + 1)
    ensures IsAdded(m) ==>
      r.event == Some(ConsumerStarted(destination, m.dataStructure.consumerId, ExtractConsumerCount(m, r.count)))
    ensures IsRemoved(m) ==> r.count == Wrap32(count - 1)
    ensures IsRemoved(m) ==>
      r.event == Some(ConsumerStopped(destination, m.dataStructure.objectId, ExtractConsumerCount(m, r.count)))
    ensures !IsAdded(m) && !IsRemoved(m) ==> r == Reaction(count, None)
  {
    match m
    case NonNative(_) => Reaction(count, None)
    case Native(command, _) =>
      match command
      case ConsumerInfo(id) =>
        var local := Wrap32(count + 1);
        Reaction(local, Some(ConsumerStarted(destination, id, ExtractConsumerCount(m, local))))
      case RemoveInfo(removed) =>
        if IsConsumerRemove(command) then
          var local := Wrap32(count - 1);
          Reaction(local, Some(ConsumerStopped(destination, removed, ExtractConsumerCount(m, local))))
        else Reaction(count, None)
      case OtherCommand => Reaction(count, None)
      case NoCommand => Reaction(count, None)
  }

  /** `fireConsumerEvent`: what the listener receives, nothing without one. */
  function Fire(listener: Option<ConsumerListener>, event: ConsumerEvent): seq<Delivery> {
    if listener.Some? then [Delivery(listener.value, event)] else []
  }

  /** The local count after a sequence of advisories. */
  function Replay(count: int32, destination: Destination, ms: seq<AdvisoryMessage>): int32
    decreases |ms|
  {
    if ms == [] then count else Replay(Advise(count, destination, ms[0]).count, destination, ms[1..])
  }

  /** The number of added-consumer advisories in `ms`. */
  function AddedCount(ms: seq<AdvisoryMessage>): nat
    decreases |ms|
  {
    if ms == [] then 0 else (if IsAdded(ms[0]) then 1 else 0) + AddedCount(ms[1..])
  }

  /** The number of consumer-removal advisories in `ms`. */
  function RemovedCount(ms: seq<AdvisoryMessage>): nat
    decreases |ms|
  {
    if ms == [] then 0 else (if IsRemoved(ms[0]) then 1 else 0) + RemovedCount(ms[1..])
  }

  /** How far one advisory moves the local count. */
  function Delta(m: AdvisoryMessage): int {
    (if IsAdded(m) then 1 else 0) - (if IsRemoved(m) then 1 else 0)
  }

  /** One advisory moves the count by its `Delta`, wrapped to `int`. */
  lemma AdviseCount(count: int32, destination: Destination, m: AdvisoryMessage)
    ensures Advise(count, destination, m).count == Wrap32(count + Delta(m))
  {
    if !IsAdded(m) && !IsRemoved(m) {
      Wrap32Identity(count);
    }
  }

  /** The local count only ever moves by the advisories' kinds: after any
      sequence it is the start plus the added consumers minus the removed
      ones, in `int` arithmetic. The `consumerCount` properties, which
      override what is reported, never feed back into it. */
  lemma {:induction false} ReplayCount(count: int32, destination: Destination, ms: seq<AdvisoryMessage>)
    ensures Replay(count, destination, ms) == Wrap32(count + AddedCount(ms) - RemovedCount(ms))
    decreases |ms|
  {
    if ms == [] {
      Wrap32Identity(count);
    } else {
      var rest := ms[1..];
      var next := Advise(count, destination, ms[0]).count;
      AdviseCount(count, destination, ms[0]);
      ReplayCount(next, destination, rest);
      Wrap32AddLeft(count + Delta(ms[0]), AddedCount(rest) - RemovedCount(rest));
      assert AddedCount(ms) - RemovedCount(ms) == Delta(ms[0]) + AddedCount(rest) - RemovedCount(rest);
    }
  }

  class ConsumerEventSource {
    const destination: Destination
    var listener: Option<ConsumerListener>
    var started: bool
    var consumerCount: int32
    var session: Option<SessionHandle>
    var consumer: Option<ConsumerHandle>
    var subscriptions: seq<Subscription>    // advisory consumers opened, in order
    var closedSessions: seq<SessionHandle>  // sessions closed, in order
    var delivered: seq<Delivery>            // events handed to a listener, in order

    /** A stopped source for `destination` with a count of zero and no
        listener. */
    constructor (destination: Destination)
      ensures this.destination == destination && listener == None
      ensures !started && consumerCount == 0 && session == None && consumer == None
      ensures subscriptions == [] && closedSessions == [] && delivered == []
    {
      this.destination := destination;
      listener := None;
      started := false;
      consumerCount := 0;
      session := None;
      consumer := None;
      subscriptions := [];
      closedSessions := [];
      delivered := [];
    }

    method SetConsumerListener(l: Option<ConsumerListener>)
      modifies this`listener
      ensures listener == l
    {
      listener := l;
    }

    /** `start`: only the first call after construction or `stop` acts. It
        marks the source started, then opens a session and an advisory
        consumer with this source as its listener; an exception from either
        call is thrown with the source left started. */
    method Start(outcome: SubscribeOutcome) returns (r: Outcome)
      modifies this`started, this`session, this`consumer, this`subscriptions
      ensures old(started) ==>
        r == Pass && started && session == old(session) && consumer == old(consumer) &&
        subscriptions == old(subscriptions)
      ensures !old(started) ==> started && match outcome
        case Subscribed(s, c) =>
          r == Pass && session == Some(s) && consumer == Some(c) &&
          subscriptions == old(subscriptions) + [Subscription(s, c)]
        case SessionRefused(e) =>
          r == Fail(e) && session == old(session) && consumer == old(consumer) &&
          subscriptions == old(subscriptions)
        case ConsumerRefused(s, e) =>
          r == Fail(e) && session == Some(s) && consumer == old(consumer) &&
          subscriptions == old(subscriptions)
    {
      if !started {
        started := true;
        match outcome {
          case SessionRefused(e) =>
            return Fail(e);
          case ConsumerRefused(s, e) =>
            session := Some(s);
            return Fail(e);
          case Subscribed(s, c) =>
            session := Some(s);
            consumer := Some(c);
            subscriptions := subscriptions + [Subscription(s, c)];
        }
      }
      r := Pass;
    }

    /** `stop`: only a started source acts. It is marked stopped and its
        session, if one was ever opened, is closed. */
    method Stop()
      modifies this`started, this`closedSessions
      ensures !started
      ensures old(started) && session.Some? ==> closedSessions == old(closedSessions) + [session.value]
      ensures !(old(started) && session.Some?) ==> closedSessions == old(closedSessions)
    {
      if started {
        started := false;
        if session.Some? {
          closedSessions := closedSessions + [session.value];
        }
      }
    }

    /** `fireConsumerEvent`: the event goes to the listener; with none
        registered it is dropped. */
    method FireConsumerEvent(event: ConsumerEvent)
      modifies this`delivered
      ensures delivered == old(delivered) + Fire(listener, event)
    {
      if listener.Some? {
        delivered := delivered + [Delivery(listener.value, event)];
      }
    }

    /** `onMessage`: the local count moves as `Advise` says and the event it
        names, if any, is fired. */
    method OnMessage(message: AdvisoryMessage)
      modifies this`consumerCount, this`delivered
      ensures consumerCount == Advise(old(consumerCount), destination, message).count
      ensures var e := Advise(old(consumerCount), destination, message).event;
        delivered == old(delivered) + (if e.Some? then Fire(listener, e.value) else [])
    {
      if message.Native? {
        var command := message.dataStructure;
        if command.ConsumerInfo? {
          consumerCount := Wrap32(consumerCount + 1);
          var count := ExtractConsumerCount(message, consumerCount);
          FireConsumerEvent(ConsumerStarted(destination, command.consumerId, count));
        } else if command.RemoveInfo? {
          if IsConsumerRemove(command) {
            consumerCount := Wrap32(consumerCount - 1);
            var count := ExtractConsumerCount(message, consumerCount);
            FireConsumerEvent(ConsumerStopped(destination, command.objectId, count));
          }
        }
      }
    }
  }

  /** Delivering a sequence of advisories one by one leaves the local count
      at `Replay` of them. */
  method DeliverAll(source: ConsumerEventSource, ms: seq<AdvisoryMessage>)
    modifies source
    ensures source.consumerCount == Replay(old(source.consumerCount), source.destination, ms)
    ensures source.consumerCount == Wrap32(old(source.consumerCount) + AddedCount(ms) - RemovedCount(ms))
  {
    var i := 0;
    while i < |ms|
      invariant i <= |ms|
      invariant Replay(source.consumerCount, source.destination, ms[i..]) ==
                Replay(old(source.consumerCount), source.destination, ms)
    {
      assert ms[i..][1..] == ms[i + 1..];
      source.OnMessage(ms[i]);
      i := i + 1;
    }
    ReplayCount(old(source.consumerCount), source.destination, ms);
  }
}
