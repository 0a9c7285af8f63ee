# ActiveMQ client message model in Dafny

This project models three sequential parts of the ActiveMQ JMS client and
proves properties of them:

- **Foreign-to-native message transformation** (`Transformation.dfy`). A
  message of any JMS provider becomes a native `ActiveMQMessage`. A native
  message is passed through unchanged. Otherwise the body kind is picked from
  the body interfaces the message implements, in the fixed order bytes, map,
  object, stream, text, blob (none of them gives a header-only message). Byte
  and stream bodies are drained through their cursors until end of stream, a
  read failure or (for streams) a null value. Map entries and user
  properties are copied name by name. Then the header is copied, with the
  delivery time falling back to the timestamp for a provider without a
  concrete `getJMSDeliveryTime`.
- **The lazy text body** (`TextMessage.dfy`). `ActiveMQTextMessage` keeps its
  body as decoded `text`, as encoded `content` (deflated when `compressed`),
  or as both. The model proves the state machine of `setText`, `getText`,
  `storeContent`, `storeContentAndClear`/`beforeMarshall`, `clearBody`,
  `clearUnMarshalledState`, `isContentMarshalled` and `getSize`. Against an
  abstract lossless UTF-8/deflate codec it proves that marshalling and then
  reading gives the text back.
- **Consumer-count reconciliation** (`ConsumerEvents.dfy`).
  `ConsumerEventSource` counts the consumers on one destination from the
  broker's consumer advisories. An added consumer counts up by one and a
  removed consumer counts down by one. Each change is reported to the
  listener with the advisory's own `consumerCount` when it carries a number.
  The model proves that, after any sequence of advisories, the local count is
  the start value plus the additions minus the removals in `int` arithmetic.
  The reported counts never feed back into it.

Shared values live in `Jms.dfy`:

- Java's fixed-width integers, with `Wrap32` for `int` overflow and for
  `Number.intValue()`.
- JMS property values and destinations.
- `JString`, every Java `String` of the model (texts, ids, names, URLs) as UTF-16 code units.
- `Result`/`Outcome`, which stand for a return value or a thrown
  `JMSException`.

`Commands.dfy` holds the native message class that the transformation
builds.

Calls into code outside the model become parameters:

- the UTF-8 and deflate codecs (`TextMessage.Codec`, with `Lossless` as the
  round-trip condition);
- `transformDestination` (`Jms.DestinationTransform`);
- the connection's answers when `start` creates a session and consumer
  (`ConsumerEvents.SubscribeOutcome`);
- the minimum message size of `getSize`.

A foreign message is a datatype of what its accessors return:

- the set of body interfaces it implements;
- each cursor body as a sequence plus an optional index whose read fails;
- its properties as a map in which a name may be bound to a thrown error;
- what the reflective probe for `getJMSDeliveryTime` finds.

The round trip of the text body needs one condition: the `compressed` flag
must not be left over from an earlier compression. `setText` resets
`content` but not `compressed`, and `storeContent` only ever sets the flag.
So a body once deflated and then re-stored through a connection that does
not compress is written uncompressed while still flagged compressed.
`StoreContentAndClear`, `BeforeMarshall` and `MarshalThenRead` state their
round trip under that condition.

## Model

| member | source | states |
|---|---|---|
| Jms.IntValue | activemq-client/src/main/java/org/apache/activemq/advisory/ConsumerEventSource.java:121-123 | `Number.intValue()` keeps the low 32 bits (the result is congruent to the number modulo 2^32) and is the number itself whenever it fits in an `int` |
| Transformation.BodyBranch | activemq-client/src/main/java/org/apache/activemq/ActiveMQMessageTransformation.java:89-164 | exactly one branch is taken: none exactly when the message implements no body interface; otherwise an implemented interface that no other implemented interface precedes in the order bytes, map, object, stream, text, blob |
| Transformation.DrainedBytes | activemq-client/src/main/java/org/apache/activemq/ActiveMQMessageTransformation.java:91-103 | the drained bytes are a prefix of the source bytes, all of them when no read fails, and exactly those before the failing read otherwise |
| Transformation.DrainBytesInto | activemq-client/src/main/java/org/apache/activemq/ActiveMQMessageTransformation.java:89-105 | the `for(;;)` loop leaves the new bytes message holding exactly `DrainedBytes`, with end of stream and read failures both ending the loop quietly |
| Transformation.DrainedStream | activemq-client/src/main/java/org/apache/activemq/ActiveMQMessageTransformation.java:127-139 | the drained values are a prefix of the stream with no null among them; a shorter result stops at a null value or at the failing read; nothing at or past a failing read is copied; with neither a null nor a failure, the whole stream is copied |
| Transformation.DrainStreamInto | activemq-client/src/main/java/org/apache/activemq/ActiveMQMessageTransformation.java:125-141 | the `while` loop leaves the new stream message holding exactly `DrainedStream` |
| Transformation.CopyMapInto | activemq-client/src/main/java/org/apache/activemq/ActiveMQMessageTransformation.java:106-117 | every name enumerated by `getMapNames` maps to the source's `getObject(name)`, and no other name is set |
| Transformation.DeliveryTimeOf | activemq-client/src/main/java/org/apache/activemq/ActiveMQMessageTransformation.java:202-219 | the delivery time is the source's own when its class has a non-abstract `getJMSDeliveryTime`, and its timestamp when the getter is missing or abstract |
| Transformation.HeaderCopyError | activemq-client/src/main/java/org/apache/activemq/ActiveMQMessageTransformation.java:180-200 | the header copy succeeds exactly when both destination conversions succeed and every enumerated property can be read |
| Transformation.CopyUserProperties | activemq-client/src/main/java/org/apache/activemq/ActiveMQMessageTransformation.java:193-199 | the property loop fails with the error of the first enumerated property whose getter throws; otherwise every enumerated name is added with the source's value |
| Transformation.CopyHeader | activemq-client/src/main/java/org/apache/activemq/ActiveMQMessageTransformation.java:181-191 | message id and correlation id are always copied; a failing conversion of the reply-to, then of the destination, is thrown with its error; otherwise every header field equals the source's, the destinations converted and the delivery time chosen by `DeliveryTimeOf` |
| Transformation.CopyProperties | activemq-client/src/main/java/org/apache/activemq/ActiveMQMessageTransformation.java:180-200 | the copy fails exactly when `HeaderCopyError` names an error, and with that error; message id and correlation id are always copied; on success every header field equals the source's (destinations through `transformDestination`, delivery time by `DeliveryTimeOf`) and the properties gain `CopiedProperties`; body and connection are never touched |
| Transformation.ConvertBody | activemq-client/src/main/java/org/apache/activemq/ActiveMQMessageTransformation.java:87-164 | a fresh native message bound to the connection, with no properties, whose body is what the branch chosen by `BodyBranch` builds: the drained bytes or stream, the copied map, the object stored eagerly, the text verbatim (null included) in a writable text message, a blob whose downloader exists only with a connection and whose malformed URL is dropped, or no body |
| Transformation.TransformMessage | activemq-client/src/main/java/org/apache/activemq/ActiveMQMessageTransformation.java:81-170 | a native message comes back as the same object; a foreign one fails exactly when the header copy fails, with its error; otherwise the result is fresh, bound to the connection, with the converted body, the copied header and exactly the source's enumerated properties |
| TextMessage.DecodeContent | activemq-client/src/main/java/org/apache/activemq/command/ActiveMQTextMessage.java:93-118 | absent content decodes to a null string; uncompressed content is read as UTF-8; compressed content is inflated first and the inflated bytes are read as UTF-8, and an inflation failure is returned as that error |
| TextMessage.DecodeInvertsEncode | activemq-client/src/main/java/org/apache/activemq/command/ActiveMQTextMessage.java:93-118 | with a lossless codec, decoding what `storeContent` writes gives back the text, with or without compression |
| TextMessage.ActiveMQTextMessage.Copy | activemq-client/src/main/java/org/apache/activemq/command/ActiveMQTextMessage.java:53-62 | the copy is a new text message with the same text and the same other fields |
| TextMessage.ActiveMQTextMessage.SetText | activemq-client/src/main/java/org/apache/activemq/command/ActiveMQTextMessage.java:75-79 | a read-only body fails with `MessageNotWriteable` and nothing changes; otherwise the text is the value given and the content is dropped, so a non-null text leaves the body not marshalled |
| TextMessage.ActiveMQTextMessage.GetText | activemq-client/src/main/java/org/apache/activemq/command/ActiveMQTextMessage.java:82-91 | with no text but content, the result is the decoded content, which is cached as the text while content and the compressed flag are cleared; a decoding failure is returned with nothing changed; otherwise the text is returned with no state change |
| TextMessage.ActiveMQTextMessage.StoreContent | activemq-client/src/main/java/org/apache/activemq/command/ActiveMQTextMessage.java:133-153 | with text and no content, the content becomes the encoding of the text (deflated when the connection compresses) and the text is kept, so both are set; the flag is set only by a compressing connection and never cleared; otherwise nothing changes; afterwards the content is marshalled |
| TextMessage.ActiveMQTextMessage.StoreContentAndClear | activemq-client/src/main/java/org/apache/activemq/command/ActiveMQTextMessage.java:127-130 | the content is stored as by `StoreContent` and the text is dropped, so the body is marshalled; when no content was stored before, the codec is lossless and the compressed flag is not stale, the content decodes to the text it replaced |
| TextMessage.ActiveMQTextMessage.BeforeMarshall | activemq-client/src/main/java/org/apache/activemq/command/ActiveMQTextMessage.java:121-124 | the same state change as `StoreContentAndClear`, and the same round trip when no content was stored before |
| TextMessage.ActiveMQTextMessage.ClearUnMarshalledState | activemq-client/src/main/java/org/apache/activemq/command/ActiveMQTextMessage.java:158-161 | the text is dropped and the content is kept, so the body is marshalled |
| TextMessage.ActiveMQTextMessage.ClearBody | activemq-client/src/main/java/org/apache/activemq/command/ActiveMQTextMessage.java:180-183 | the body becomes that of a new message: no text, no content, writable, and marshalled |
| TextMessage.ActiveMQTextMessage.IsContentMarshalled | activemq-client/src/main/java/org/apache/activemq/command/ActiveMQTextMessage.java:164-166 | the content is marshalled exactly when the body is not held as text alone |
| TextMessage.ActiveMQTextMessage.GetSize | activemq-client/src/main/java/org/apache/activemq/command/ActiveMQTextMessage.java:186-196 | with no cached size, no content and some text, the size becomes minimum size + marshalled-properties length + 2 per UTF-16 unit, wrapped to `int`; otherwise the cached size is kept; the cached size is returned |
| TextMessage.SetThenGet | activemq-client/src/main/java/org/apache/activemq/command/ActiveMQTextMessage.java:75-91 | on a writable message, `getText` after `setText` returns the value set |
| TextMessage.MarshalThenRead | activemq-client/src/main/java/org/apache/activemq/command/ActiveMQTextMessage.java:82-130 | `beforeMarshall` followed by `getText` returns the original text and leaves it decoded again, with or without compression |
| TextMessage.StoreMarshalThenRead | activemq-client/src/main/java/org/apache/activemq/command/ActiveMQTextMessage.java:82-153 | from the state `storeContent` leaves, with both text and content, `beforeMarshall` keeps the content and `getText` returns the original text, with or without compression |
| ConsumerEvents.ExtractConsumerCount | activemq-client/src/main/java/org/apache/activemq/advisory/ConsumerEventSource.java:118-130 | a numeric `consumerCount` property gives its `intValue`; an absent, non-numeric or unreadable one gives the local count |
| ConsumerEvents.Advise | activemq-client/src/main/java/org/apache/activemq/advisory/ConsumerEventSource.java:89-111 | an added consumer moves the count up by exactly one and a consumer removal down by exactly one (no lower bound), each with one event whose count follows the override rule; a non-consumer removal, any other command and a non-native message leave the count alone and fire nothing |
| ConsumerEvents.ReplayCount | activemq-client/src/main/java/org/apache/activemq/advisory/ConsumerEventSource.java:94-104 | after any sequence of advisories the local count is the start plus the added consumers minus the removed ones, in `int` arithmetic, whatever the `consumerCount` properties say |
| ConsumerEvents.ConsumerEventSource.constructor | activemq-client/src/main/java/org/apache/activemq/advisory/ConsumerEventSource.java:51-62 | a new source is stopped, with a count of zero, no listener, no session and no consumer |
| ConsumerEvents.ConsumerEventSource.SetConsumerListener | activemq-client/src/main/java/org/apache/activemq/advisory/ConsumerEventSource.java:64-66 | the listener is replaced |
| ConsumerEvents.ConsumerEventSource.Start | activemq-client/src/main/java/org/apache/activemq/advisory/ConsumerEventSource.java:72-79 | a started source changes nothing; a stopped one becomes started and records the session and advisory consumer it opens; a failure to create either is returned, with the source left started and a created session recorded |
| ConsumerEvents.ConsumerEventSource.Stop | activemq-client/src/main/java/org/apache/activemq/advisory/ConsumerEventSource.java:81-87 | afterwards the source is stopped; only a started source with a session closes it, so stopping a stopped source changes nothing |
| ConsumerEvents.ConsumerEventSource.FireConsumerEvent | activemq-client/src/main/java/org/apache/activemq/advisory/ConsumerEventSource.java:132-136 | the listener receives the event; with none registered the event is dropped |
| ConsumerEvents.ConsumerEventSource.OnMessage | activemq-client/src/main/java/org/apache/activemq/advisory/ConsumerEventSource.java:89-111 | the count moves as `Advise` says, and the event it names is delivered to the listener, if any |
| ConsumerEvents.DeliverAll | activemq-client/src/main/java/org/apache/activemq/advisory/ConsumerEventSource.java:89-111 | delivering advisories one by one leaves the count at the start plus additions minus removals, wrapped to `int` |

## Left out

- Thread safety of `AtomicBoolean`/`AtomicInteger`: the class is modelled sequentially. `compareAndSet` is a test of `started`, and `incrementAndGet`/`decrementAndGet` wrap around like Java `int` arithmetic.
- Logging, `toString`, `getJMSXMimeType` and `getConsumerId` are diagnostics and are not modelled.
- The message-id text that `getConsumerId` produces is not modelled.
- `ActiveMQDestination.transform` in the `ConsumerEventSource` constructor and `AdvisorySupport.getConsumerAdvisoryTopic` are not part of this model. The source takes a native destination, and the advisory topic is not recorded.
- Creating the session and the consumer, and `setMessageListener`, happen in the connection and are not modelled. What the connection does is the `SubscribeOutcome` parameter of `Start`.
- `session.close` is recorded in `closedSessions`. Its own failure is not modelled.
- `transformDestination` is the parameter `transformDestination`, because its body is not part of this model.
- The modified UTF-8 writer and reader and the deflate streams are library code. They are the `Codec` parameter, and their round trip is the `Lossless` precondition.
- The `IOException` of `storeContent`, rethrown as a `RuntimeException`, is not modelled: the codec's writer is total. The closing of streams in `decodeContent` is not modelled either.
- The `ActiveMQMessage` base class is not part of this model. The model makes these choices about it:
  - `checkReadOnlyBody` is the `readOnlyBody` flag.
  - `super.clearBody` clears the content and the read-only flag.
  - `super.copy` copies every field.
  - `getMinimumMessageSize()` is a parameter.
  - `super.getSize()` returns the cached size.
  - `setConnection` is a field update.
  - `super.beforeMarshall(wireFormat)` and `super.clearUnMarshalledState()` change none of the modelled fields. The `IOException` that `super.beforeMarshall` may throw is not modelled.
- `getDataStructureType` returns the constant `TextMessage.DataStructureType`, the wire code 28 of a text message. It is not modelled as a method.
- The body classes of bytes, map, object, stream and blob messages are not part of this model. Their bodies are values of `Commands.Body`:
  - the object body's serialised form is a `stored` flag set by `storeContent`;
  - the blob downloader is the connection's transfer policy;
  - URL parsing is the `MalformedUrl` case;
  - the native setters `setObjectProperty`, `setObject`, `writeObject` and `writeByte` are plain map updates and appends, without the value checks the native classes make.
- Float, double and character property values are not among the modelled `Value`s.
- Transformation.TransformMessage: exceptions from these foreign accessors are not modelled, so the result never fails for these reasons:
  - the header getters;
  - `getMapNames` and the map body's `getObject`;
  - the object body's `getObject`;
  - the foreign text message's `getText`;
  - the cursors' `reset`;
  - `getPropertyNames`;
  - any exception from the blob's `getURL` other than `MalformedURLException`.
  Only the destination conversions and the property getters can fail.
- Transformation.CopyProperties: after a failed copy, only the message id and correlation id of the target are stated. The header fields set before the failure and the properties copied before it are not stated.
