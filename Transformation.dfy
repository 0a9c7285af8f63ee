/** Conversion of a message of any JMS provider into a native message: the
    body is chosen by the body interfaces the message implements, in a fixed
    precedence; byte and stream bodies are drained through their cursors
    until the end, a read failure or (for streams) a null value; then the
    header fields and every user property are copied. */
module Transformation {
  import opened Jms
  import opened TextMessage
  import opened Commands

  /** The JMS body interfaces a foreign message may implement. */
  datatype BodyCapability =
    | BytesCapability    // jakarta.jms.BytesMessage
    | MapCapability      // jakarta.jms.MapMessage
    | ObjectCapability   // jakarta.jms.ObjectMessage
    | StreamCapability   // jakarta.jms.StreamMessage
    | TextCapability     // jakarta.jms.TextMessage
    | BlobCapability     // the blob message interface of this client

  /** The position of a capability in the order the body kinds are tested. */
  function Rank(k: BodyCapability): nat {
    match k
    case BytesCapability => 0
    case MapCapability => 1
    case ObjectCapability => 2
    case StreamCapability => 3
    case TextCapability => 4
    case BlobCapability => 5
  }

  /** What the reflective look-up of `getJMSDeliveryTime` finds on the
      foreign message's class. */
  datatype DeliveryTimeGetter = NoGetter | AbstractGetter | ConcreteGetter

  /** What the foreign blob message's `getURL` gives: a URL (possibly
      absent) or a `MalformedURLException`. */
  datatype BlobUrl = BlobUrl(url: Option<JString>) | MalformedUrl

  /** The values the standard JMS header accessors return. */
  datatype ForeignHeader = ForeignHeader(
    messageId: Option<JString>,
    correlationId: Option<JString>,
    replyTo: Option<ForeignDestination>,
    destination: Option<ForeignDestination>,
    deliveryMode: int32,
    deliveryTime: int64,
    redelivered: bool,
    jmsType: Option<JString>,
    expiration: int64,
    priority: int32,
    timestamp: int64)

  /** A message of another provider, as seen through its accessors. Each
      cursor-based body is a sequence read from position 0 after `reset`;
      the read at position `...FailAt` throws a JMSException other than
      end-of-stream. A property name with no entry in `properties` reads as
      null; an entry `Err(e)` is a property whose getter throws. A map name
      with no entry in `mapEntries` reads as null. */
  datatype ForeignMessage = ForeignMessage(
    capabilities: set<BodyCapability>,
    header: ForeignHeader,
    deliveryTimeGetter: DeliveryTimeGetter,
    propertyNames: seq<JString>,
    properties: map<JString, Result<Value>>,
    bytes: seq<byte>,
    bytesFailAt: Option<nat>,
    mapNames: seq<JString>,
    mapEntries: map<JString, Value>,
    objectBody: Value,
    stream: seq<Value>,
    streamFailAt: Option<nat>,
    text: Option<JString>,
    blobUrl: BlobUrl)

  /** A message handed to the transformation: already native, or foreign. */
  datatype JmsMessage = Native(message: ActiveMQMessage) | Foreign(foreign: ForeignMessage)

  /** What one read from a foreign body cursor gives. */
  datatype Read<T> = Item(value: T) | EndOfStream | ReadFailure

  /** `readByte` at cursor position `i`. */
  function ReadByteAt(f: ForeignMessage, i: nat): Read<byte> {
    if f.bytesFailAt == Some(i) then ReadFailure
    else if i < |f.bytes| then Item(f.bytes[i])
    else EndOfStream
  }

  /** `readObject` at cursor position `i`. */
  function ReadObjectAt(f: ForeignMessage, i: nat): Read<Value> {
    if f.streamFailAt == Some(i) then ReadFailure
    else if i < |f.stream| then Item(f.stream[i])
    else EndOfStream
  }

  /** `getObject(name)` on the foreign map body. */
  function MapGet(f: ForeignMessage, name: JString): Value {
    if name in f.mapEntries then f.mapEntries[name] else Null
  }

  /** `getObjectProperty(name)` on the foreign message. */
  function PropertyGet(f: ForeignMessage, name: JString): Result<Value> {
    if name in f.properties then f.properties[name] else Ok(Null)
  }

  /** The body branch the transformation takes: the first implemented body
      interface in the order bytes, map, object, stream, text, blob; none
      for a message implementing none of them. */
  function BodyBranch(capabilities: set<BodyCapability>): (r: Option<BodyCapability>)
    ensures r.None? <==> capabilities == {}
    ensures r.Some? ==> r.value in capabilities
    ensures r.Some? ==> forall k :: k in capabilities ==> Rank(r.value) <= Rank(k)
  {
    if BytesCapability in capabilities then Some(BytesCapability)
    else if MapCapability in capabilities then Some(MapCapability)
    else if ObjectCapability in capabilities then Some(ObjectCapability)
    else if StreamCapability in capabilities then Some(StreamCapability)
    else if TextCapability in capabilities then Some(TextCapability)
    else if BlobCapability in capabilities then Some(BlobCapability)
    else NoCapability(capabilities); None
  }

  /** A set of capabilities that holds none of the six kinds is empty. */
  lemma NoCapability(capabilities: set<BodyCapability>)
    requires BytesCapability !in capabilities && MapCapability !in capabilities
    requires ObjectCapability !in capabilities && StreamCapability !in capabilities
    requires TextCapability !in capabilities && BlobCapability !in capabilities
    ensures capabilities == {}
  {
    forall k: BodyCapability
      ensures k !in capabilities
    {
      match k
      case BytesCapability =>
      case MapCapability =>
      case ObjectCapability =>
      case StreamCapability =>
      case TextCapability =>
      case BlobCapability =>
    }
  }

  /** The cursor position, from `i` on, at which the byte drain stops: the
      first read that is not a byte. */
  function BytesStopFrom(f: ForeignMessage, i: nat): (k: nat)
    requires i <= |f.bytes|
    ensures i <= k <= |f.bytes|
    ensures forall j :: i <= j < k ==> ReadByteAt(f, j).Item?
    ensures !ReadByteAt(f, k).Item?
    decreases |f.bytes| - i
  {
    if !ReadByteAt(f, i).Item? then i else BytesStopFrom(f, i + 1)
  }

  /** The bytes the drain copies: the source bytes in order, up to the end
      of the body or the first failing read. */
  function DrainedBytes(f: ForeignMessage): (r: seq<byte>)
    ensures |r| <= |f.bytes| && r == f.bytes[..|r|]
    ensures (f.bytesFailAt.None? || f.bytesFailAt.value >= |f.bytes|) ==> r == f.bytes
    ensures f.bytesFailAt.Some? && f.bytesFailAt.value < |f.bytes| ==> r == f.bytes[..f.bytesFailAt.value]
  {
    var k := BytesStopFrom(f, 0);
    assert f.bytesFailAt.Some? && f.bytesFailAt.value < k ==> !ReadByteAt(f, f.bytesFailAt.value).Item?;
    f.bytes[..k]
  }

  /** The cursor position, from `i` on, at which the stream drain stops:
      the first read that is not a non-null value. */
  function StreamStopFrom(f: ForeignMessage, i: nat): (k: nat)
    requires i <= |f.stream|
    ensures i <= k <= |f.stream|
    ensures forall j :: i <= j < k ==> ReadObjectAt(f, j).Item? && !ReadObjectAt(f, j).value.Null?
    ensures !(ReadObjectAt(f, k).Item? && !ReadObjectAt(f, k).value.Null?)
    decreases |f.stream| - i
  {
    var read := ReadObjectAt(f, i);
    if !(read.Item? && !read.value.Null?) then i else StreamStopFrom(f, i + 1)
  }

  /** The values the stream drain copies: the source values in order, up
      to the first null, the end of the stream or the first failing read. */
  function DrainedStream(f: ForeignMessage): (r: seq<Value>)
    ensures |r| <= |f.stream| && r == f.stream[..|r|]
    ensures forall j :: 0 <= j < |r| ==> !r[j].Null?
    ensures |r| < |f.stream| ==> f.stream[|r|].Null? || f.streamFailAt == Some(|r|)
    ensures f.streamFailAt.Some? ==> |r| <= f.streamFailAt.value
    ensures ((f.streamFailAt.None? || f.streamFailAt.value >= |f.stream|) &&
             (forall j :: 0 <= j < |f.stream| ==> !f.stream[j].Null?)) ==> r == f.stream
  {
    var k := StreamStopFrom(f, 0);
    assert f.streamFailAt.Some? && f.streamFailAt.value < k ==> !ReadObjectAt(f, f.streamFailAt.value).Item?;
    assert forall j :: 0 <= j < k ==> ReadObjectAt(f, j) == Item(f.stream[j]);
    f.stream[..k]
  }

  /** The map body the transformation builds: every enumerated name bound
      to what the foreign map returns for it. */
  function CopiedEntries(f: ForeignMessage): map<JString, Value> {
    map name | name in f.mapNames :: MapGet(f, name)
  }

  /** The position, from `i` on, of the first property name whose getter
      throws, or the number of names when every read succeeds. */
  function PropertyStopFrom(f: ForeignMessage, i: nat): (k: nat)
    requires i <= |f.propertyNames|
    ensures i <= k <= |f.propertyNames|
    ensures forall j :: i <= j < k ==> PropertyGet(f, f.propertyNames[j]).Ok?
    ensures k < |f.propertyNames| ==> PropertyGet(f, f.propertyNames[k]).Err?
    decreases |f.propertyNames| - i
  {
    if i == |f.propertyNames| || PropertyGet(f, f.propertyNames[i]).Err? then i
    else PropertyStopFrom(f, i + 1)
  }

  /** Every enumerated property can be read. */
  predicate PropertiesReadable(f: ForeignMessage) {
    forall name :: name in f.propertyNames ==> PropertyGet(f, name).Ok?
  }

  /** The value a property read gives when it does not throw. */
  function PropertyValue(f: ForeignMessage, name: JString): Value {
    match PropertyGet(f, name)
    case Ok(v) => v
    case Err(_) => Null
  }

  /** The user properties the copy sets: every enumerated name bound to
      the foreign message's value for it. */
  function CopiedProperties(f: ForeignMessage): map<JString, Value> {
    map name | name in f.propertyNames :: PropertyValue(f, name)
  }

  /** `getFromMessageDeliveryTime`: the source's delivery time when its
      class has a non-abstract `getJMSDeliveryTime`, and its timestamp when
      it has none (a JMS 1.x provider) or only an abstract one. */
  function DeliveryTimeOf(f: ForeignMessage): (t: int64)
    ensures f.deliveryTimeGetter == ConcreteGetter ==> t == f.header.deliveryTime
    ensures f.deliveryTimeGetter != ConcreteGetter ==> t == f.header.timestamp
  {
    match f.deliveryTimeGetter
    case ConcreteGetter => f.header.deliveryTime
    case NoGetter => f.header.timestamp
    case AbstractGetter => f.header.timestamp
  }

  /** The exception `copyProperties` throws, if any: a failing conversion
      of the reply-to destination, then of the destination, then the first
      property whose getter throws. */
  function HeaderCopyError(f: ForeignMessage, transformDestination: DestinationTransform): (e: Option<JmsError>)
    ensures e.None? ==> PropertiesReadable(f)
    ensures e.None? <==> transformDestination(f.header.replyTo).Ok? &&
                         transformDestination(f.header.destination).Ok? && PropertiesReadable(f)
  {
    if transformDestination(f.header.replyTo).Err? then Some(transformDestination(f.header.replyTo).error)
    else if transformDestination(f.header.destination).Err? then Some(transformDestination(f.header.destination).error)
    else
      var k := PropertyStopFrom(f, 0);
      if k < |f.propertyNames| then Some(PropertyGet(f, f.propertyNames[k]).error)
      else
        assert forall j :: 0 <= j < |f.propertyNames| ==> PropertyGet(f, f.propertyNames[j]).Ok?;
        None
  }

  /** The blob URL the native blob message ends up with: a malformed URL is
      swallowed and leaves none. */
  function BlobUrlOf(u: BlobUrl): Option<JString> {
    match u
    case BlobUrl(url) => url
    case MalformedUrl => None
  }

  /** The downloader a blob message gets: one bound to the connection's
      transfer policy, only when there is a connection. */
  function DownloaderFor(connection: Option<Connection>): Option<BlobTransferPolicy> {
    if connection.Some? then Some(connection.value.blobTransferPolicy) else None
  }

  /** The body of `m` is the one the branch for `f` builds. */
  ghost predicate BodyConverted(f: ForeignMessage, connection: Option<Connection>, body: Body)
    reads if body.TextBody? then {body.message} else {}
  {
    match BodyBranch(f.capabilities)
    case None => body == PlainBody
    case Some(BytesCapability) => body == BytesBody(DrainedBytes(f))
    case Some(MapCapability) => body == MapBody(CopiedEntries(f))
    case Some(ObjectCapability) => body == ObjectBody(f.objectBody, true)
    case Some(StreamCapability) => body == StreamBody(DrainedStream(f))
    case Some(TextCapability) =>
      && body.TextBody?
      && body.message.text == f.text && body.message.content == None
      && !body.message.compressed && !body.message.readOnlyBody
      && body.message.connection == connection
    case Some(BlobCapability) => body == BlobBody(BlobUrlOf(f.blobUrl), DownloaderFor(connection))
  }

  /** The header of `m` carries the source's header values, with both
      destinations converted and the delivery time chosen by the probe. */
  ghost predicate HeaderCopied(f: ForeignMessage, transformDestination: DestinationTransform, m: ActiveMQMessage)
    reads m
    requires transformDestination(f.header.replyTo).Ok? && transformDestination(f.header.destination).Ok?
  {
    && m.messageId == f.header.messageId
    && m.correlationId == f.header.correlationId
    && m.replyTo == transformDestination(f.header.replyTo).value
    && m.destination == transformDestination(f.header.destination).value
    && m.deliveryMode == f.header.deliveryMode
    && m.deliveryTime == DeliveryTimeOf(f)
    && m.redelivered == f.header.redelivered
    && m.jmsType == f.header.jmsType
    && m.expiration == f.header.expiration
    && m.priority == f.header.priority
    && m.timestamp == f.header.timestamp
  }

  /** The byte branch: after `reset`, copy bytes one at a time until the
      end of the body or a read failure, both of which end the loop
      quietly. */
  method DrainBytesInto(f: ForeignMessage, msg: ActiveMQMessage)
    requires msg.body == BytesBody([])
    modifies msg`body
    ensures msg.body == BytesBody(DrainedBytes(f))
  {
    var cursor := 0;
    while true
      invariant cursor <= BytesStopFrom(f, 0)
      invariant msg.body == BytesBody(f.bytes[..cursor])
      decreases |f.bytes| - cursor
    {
      var read := ReadByteAt(f, cursor);
      match read {
        case Item(b) =>
          msg.body := BytesBody(msg.body.data + [b]);
          cursor := cursor + 1;
        case EndOfStream =>
          break;
        case ReadFailure =>
          break;
      }
    }
  }

  /** The map branch: every enumerated name is set to the foreign map's
      value for it. */
  method CopyMapInto(f: ForeignMessage, msg: ActiveMQMessage)
    requires msg.body == MapBody(map[])
    modifies msg`body
    ensures msg.body == MapBody(CopiedEntries(f))
  {
    var i := 0;
    while i < |f.mapNames|
      invariant i <= |f.mapNames|
      invariant msg.body == MapBody(map name | name in f.mapNames[..i] :: MapGet(f, name))
    {
      var name := f.mapNames[i];
      assert f.mapNames[..i + 1] == f.mapNames[..i] + [name];
      msg.body := MapBody(msg.body.entries[name := MapGet(f, name)]);
      i := i + 1;
    }
    assert f.mapNames[..i] == f.mapNames;
  }

  /** The stream branch: after `reset`, copy values until `readObject`
      gives null, the end of the stream or a read failure. */
  method DrainStreamInto(f: ForeignMessage, msg: ActiveMQMessage)
    requires msg.body == StreamBody([])
    modifies msg`body
    ensures msg.body == StreamBody(DrainedStream(f))
  {
    var cursor := 0;
    while true
      invariant cursor <= StreamStopFrom(f, 0)
      invariant msg.body == StreamBody(f.stream[..cursor])
      decreases |f.stream| - cursor
    {
      var read := ReadObjectAt(f, cursor);
      if read.Item? && !read.value.Null? {
        msg.body := StreamBody(msg.body.values + [read.value]);
        cursor := cursor + 1;
      } else {
        break;
      }
    }
  }

  /** The properties the copy loop has set after the first `i` names, in
      the order it sets them. */
  function PropertiesUpTo(f: ForeignMessage, i: nat): map<JString, Value>
    requires i <= |f.propertyNames|
    decreases i
  {
    if i == 0 then map[]
    else PropertiesUpTo(f, i - 1)[f.propertyNames[i - 1] := PropertyValue(f, f.propertyNames[i - 1])]
  }

  /** The first `i` names bind each of those names to its value. */
  lemma {:induction false} PropertiesUpToIsPrefix(f: ForeignMessage, i: nat)
    requires i <= |f.propertyNames|
    ensures PropertiesUpTo(f, i) == map name | name in f.propertyNames[..i] :: PropertyValue(f, name)
    decreases i
  {
    if i > 0 {
      PropertiesUpToIsPrefix(f, i - 1);
      assert f.propertyNames[..i] == f.propertyNames[..i - 1] + [f.propertyNames[i - 1]];
    }
  }

  /** One more name read adds one binding. */
  lemma PropertiesUpToStep(f: ForeignMessage, i: nat, before: map<JString, Value>)
    requires i < |f.propertyNames|
    ensures (before + PropertiesUpTo(f, i))[f.propertyNames[i] := PropertyValue(f, f.propertyNames[i])]
            == before + PropertiesUpTo(f, i + 1)
  {
  }

  /** A throwing getter at a position the loop has reached is the first
      one. */
  lemma StopAt(f: ForeignMessage, i: nat)
    requires i < |f.propertyNames| && i <= PropertyStopFrom(f, 0)
    requires PropertyGet(f, f.propertyNames[i]).Err?
    ensures PropertyStopFrom(f, 0) == i
  {
  }

  /** A readable property at a position the loop has reached is before
      the first throwing one. */
  lemma StopBeyond(f: ForeignMessage, i: nat)
    requires i < |f.propertyNames| && i <= PropertyStopFrom(f, 0)
    requires PropertyGet(f, f.propertyNames[i]).Ok?
    ensures i + 1 <= PropertyStopFrom(f, 0)
  {
  }

  /** When no getter throws, every enumerated property can be read. */
  lemma ReadableWhenNoStop(f: ForeignMessage)
    requires PropertyStopFrom(f, 0) == |f.propertyNames|
    ensures PropertiesReadable(f)
  {
    forall name | name in f.propertyNames
      ensures PropertyGet(f, name).Ok?
    {
      var j :| 0 <= j < |f.propertyNames| && f.propertyNames[j] == name;
    }
  }

  /** The user-property half of `copyProperties`: every enumerated name
      is set to the source's value for it, until a getter throws. */
  method CopyUserProperties(from: ForeignMessage, to: ActiveMQMessage) returns (r: Outcome)
    modifies to`properties
    ensures r == (if PropertyStopFrom(from, 0) < |from.propertyNames|
                  then Fail(PropertyGet(from, from.propertyNames[PropertyStopFrom(from, 0)]).error) else Pass)
    ensures r.Pass? ==> PropertiesReadable(from) && to.properties == old(to.properties) + CopiedProperties(from)
  {
    ghost var before := to.properties;
    var names := from.propertyNames;
    var i := 0;
    while i < |names|
      invariant i <= PropertyStopFrom(from, 0)
      invariant to.properties == before + PropertiesUpTo(from, i)
    {
      var name := names[i];
      var obj := PropertyGet(from, name);
      if obj.Err? {
        StopAt(from, i);
        return Fail(obj.error);
      }
      StopBeyond(from, i);
      PropertiesUpToStep(from, i, before);
      to.properties := to.properties[name := obj.value];
      i := i + 1;
    }
    ReadableWhenNoStop(from);
    PropertiesUpToIsPrefix(from, i);
    assert names[..i] == names;
    r := Pass;
  }

  /** The header setters of `copyProperties`, in order: the ids, then the
      two destinations through `transformDestination` (a failing conversion
      is thrown and ends the copy), then the remaining fields, the delivery
      time as `DeliveryTimeOf` chooses. */
  method CopyHeader(from: ForeignMessage, to: ActiveMQMessage, transformDestination: DestinationTransform)
    returns (r: Outcome)
    modifies to`messageId, to`correlationId, to`replyTo, to`destination, to`deliveryMode, to`deliveryTime
    modifies to`redelivered, to`jmsType, to`expiration, to`priority, to`timestamp
    ensures r == (if transformDestination(from.header.replyTo).Err? then Fail(transformDestination(from.header.replyTo).error)
                  else if transformDestination(from.header.destination).Err? then Fail(transformDestination(from.header.destination).error)
                  else Pass)
    ensures to.messageId == from.header.messageId && to.correlationId == from.header.correlationId
    ensures r.Pass? ==> HeaderCopied(from, transformDestination, to)
  {
    var h := from.header;
    to.messageId := h.messageId;
    to.correlationId := h.correlationId;
    var replyTo := transformDestination(h.replyTo);
    if replyTo.Err? {
      return Fail(replyTo.error);
    }
    to.replyTo := replyTo.value;
    var destination := transformDestination(h.destination);
    if destination.Err? {
      return Fail(destination.error);
    }
    to.destination := destination.value;
    to.deliveryMode := h.deliveryMode;
    to.deliveryTime := DeliveryTimeOf(from);
    to.redelivered := h.redelivered;
    to.jmsType := h.jmsType;
    to.expiration := h.expiration;
    to.priority := h.priority;
    to.timestamp := h.timestamp;
    r := Pass;
  }

  /** `copyProperties`: the header setters in order, then every user
      property by name. On success every header field and property holds
      the source's value; a failing destination conversion or property
      getter stops the copy and is thrown to the caller. The body and the
      connection are never touched. */
  method CopyProperties(from: ForeignMessage, to: ActiveMQMessage, transformDestination: DestinationTransform)
    returns (r: Outcome)
    modifies to`messageId, to`correlationId, to`replyTo, to`destination, to`deliveryMode, to`deliveryTime
    modifies to`redelivered, to`jmsType, to`expiration, to`priority, to`timestamp, to`properties
    ensures r == (if HeaderCopyError(from, transformDestination).Some?
                  then Fail(HeaderCopyError(from, transformDestination).value) else Pass)
    ensures to.body == old(to.body) && to.connection == old(to.connection)
    ensures to.messageId == from.header.messageId && to.correlationId == from.header.correlationId
    ensures r.Pass? ==> HeaderCopied(from, transformDestination, to)
    ensures r.Pass? ==> to.properties == old(to.properties) + CopiedProperties(from)
  {
    r := CopyHeader(from, to, transformDestination);
    if r.Fail? {
      return;
    }
    r := CopyUserProperties(from, to);
  }

  /** The body half of `transformMessage`: a fresh native message of the
      kind the first implemented body interface names, bound to
      `connection`, with the body converted and no properties yet. */
  method ConvertBody(f: ForeignMessage, connection: Option<Connection>) returns (activeMessage: ActiveMQMessage)
    ensures fresh(activeMessage)
    ensures activeMessage.body.TextBody? ==> fresh(activeMessage.body.message)
    ensures activeMessage.connection == connection && activeMessage.properties == map[]
    ensures BodyConverted(f, connection, activeMessage.body)
  {
    match BodyBranch(f.capabilities) {
      case Some(BytesCapability) =>
        activeMessage := new ActiveMQMessage(BytesBody([]));
        activeMessage.connection := connection;
        DrainBytesInto(f, activeMessage);
      case Some(MapCapability) =>
        activeMessage := new ActiveMQMessage(MapBody(map[]));
        activeMessage.connection := connection;
        CopyMapInto(f, activeMessage);
      case Some(ObjectCapability) =>
        activeMessage := new ActiveMQMessage(ObjectBody(Null, false));
        activeMessage.connection := connection;
        activeMessage.body := ObjectBody(f.objectBody, false);
        activeMessage.body := activeMessage.body.(stored := true);
      case Some(StreamCapability) =>
        activeMessage := new ActiveMQMessage(StreamBody([]));
        activeMessage.connection := connection;
        DrainStreamInto(f, activeMessage);
      case Some(TextCapability) =>
        var text := new ActiveMQTextMessage();
        text.SetConnection(connection);
        var written := text.SetText(f.text);
        activeMessage := new ActiveMQMessage(TextBody(text));
        activeMessage.connection := connection;
      case Some(BlobCapability) =>
        activeMessage := new ActiveMQMessage(BlobBody(None, None));
        activeMessage.connection := connection;
        if connection.Some? {
          activeMessage.body := activeMessage.body.(downloader := Some(connection.value.blobTransferPolicy));
        }
        if f.blobUrl.BlobUrl? {
          activeMessage.body := activeMessage.body.(url := f.blobUrl.url);
        }
      case None =>
        activeMessage := new ActiveMQMessage(PlainBody);
        activeMessage.connection := connection;
    }
  }

  /** `transformMessage`: a native message is returned as it is, with no
      copy and nothing changed. A foreign message gets a fresh native
      message of the kind its first implemented body interface names, bound
      to `connection`, with the body converted and then the header and
      properties copied; a failure of that copy is thrown. */
  method TransformMessage(message: JmsMessage, connection: Option<Connection>, transformDestination: DestinationTransform)
    returns (r: Result<ActiveMQMessage>)
    ensures message.Native? ==> r == Ok(message.message)
    ensures message.Foreign? ==> (r.Err? <==> HeaderCopyError(message.foreign, transformDestination).Some?)
    ensures message.Foreign? && r.Err? ==> Some(r.error) == HeaderCopyError(message.foreign, transformDestination)
    ensures message.Foreign? && r.Ok? ==>
      && fresh(r.value)
      && (r.value.body.TextBody? ==> fresh(r.value.body.message))
      && r.value.connection == connection
      && BodyConverted(message.foreign, connection, r.value.body)
      && HeaderCopyError(message.foreign, transformDestination).None?
      && HeaderCopied(message.foreign, transformDestination, r.value)
      && r.value.properties == CopiedProperties(message.foreign)
  {
    if message.Native? {
      return Ok(message.message);
    }
    var f := message.foreign;
    var activeMessage := ConvertBody(f, connection);
    var copied := CopyProperties(f, activeMessage, transformDestination);
    if copied.Fail? {
      return Err(copied.error);
    }
    assert map[] + CopiedProperties(f) == CopiedProperties(f);
    r := Ok(activeMessage);
  }
}
