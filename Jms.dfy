/** Values shared by the client message model: Java's fixed-width integers,
    JMS property values, destinations, connections and the error paths of
    the JMS accessors. */
module Jms {

  const TwoTo31: int := 0x8000_0000
  const TwoTo32: int := 0x1_0000_0000

  /** Java's `byte`, `short`, `int` and `long`. */
  type byte = x: int | -0x80 <= x < 0x80
  type int16 = x: int | -0x8000 <= x < 0x8000
  type int32 = x: int | -0x8000_0000 <= x < 0x8000_0000
  type int64 = x: int | -0x8000_0000_0000_0000 <= x < 0x8000_0000_0000_0000

  /** A Java `char`: one UTF-16 code unit. */
  type char16 = x: int | 0 <= x < 0x1_0000

  /** A Java `String`: a sequence of UTF-16 code units, so `length()` is `|s|`. */
  type JString = seq<char16>

  datatype Option<T> = None | Some(value: T)

  /** The JMS exceptions the model distinguishes. */
  datatype JmsError =
    | MessageNotWriteable     // a write to a read-only body
    | IoFailure               // a codec failure (malformed or truncated bytes)
    | ProviderFailure         // any other JMSException thrown by a foreign accessor
    | UnsupportedDestination  // a destination that cannot be converted

  /** The outcome of a call that returns a value or throws. */
  datatype Result<T> = Ok(value: T) | Err(error: JmsError)

  /** The outcome of a call that returns nothing or throws. */
  datatype Outcome = Pass | Fail(error: JmsError)

  /** Java's narrowing of an integer to `int` (and `int` arithmetic
      overflow): the two's-complement value of the low 32 bits. */
  function Wrap32(x: int): (r: int32)
    ensures (r - x) % TwoTo32 == 0
  {
    ((x + TwoTo31) % TwoTo32) - TwoTo31
  }

  /** Wrap32 is the only `int` congruent to its argument. */
  lemma Wrap32Unique(x: int, r: int32)
    requires (r - x) % TwoTo32 == 0
    ensures r == Wrap32(x)
  {
    var w := Wrap32(x);
    var k1 := (r - x) / TwoTo32;
    var k2 := (w - x) / TwoTo32;
    assert r - x == TwoTo32 * k1;
    assert w - x == TwoTo32 * k2;
    assert r - w == TwoTo32 * (k1 - k2);
  }

  /** An `int` value is not changed by narrowing. */
  lemma Wrap32Identity(x: int32)
    ensures Wrap32(x) == x
  {
    Wrap32Unique(x, x);
  }

  /** Wrapping after each addition is the same as wrapping once at the end. */
  lemma Wrap32Sum(a: int, b: int)
    ensures Wrap32(Wrap32(a) + Wrap32(b)) == Wrap32(a + b)
  {
    var wa, wb := Wrap32(a), Wrap32(b);
    var ka, kb := (wa - a) / TwoTo32, (wb - b) / TwoTo32;
    assert wa - a == TwoTo32 * ka;
    assert wb - b == TwoTo32 * kb;
    var w := Wrap32(wa + wb);
    var k := (w - (wa + wb)) / TwoTo32;
    assert w - (wa + wb) == TwoTo32 * k;
    assert w - (a + b) == TwoTo32 * (k + ka + kb);
    Wrap32Unique(a + b, w);
  }

  /** Wrapping an operand of an addition first does not change the
      wrapped sum. */
  lemma Wrap32AddLeft(a: int, b: int)
    ensures Wrap32(Wrap32(a) + b) == Wrap32(a + b)
  {
    var wa := Wrap32(a);
    var ka := (wa - a) / TwoTo32;
    assert wa - a == TwoTo32 * ka;
    var w := Wrap32(wa + b);
    var k := (w - (wa + b)) / TwoTo32;
    assert w - (wa + b) == TwoTo32 * k;
    assert w - (a + b) == TwoTo32 * (k + ka);
    Wrap32Unique(a + b, w);
  }

  /** A JMS property or map value. `OtherObject` stands for any object
      that is not one of the listed kinds and is not a `java.lang.Number`. */
  datatype Value =
    | Null
    | Boolean(boolValue: bool)
    | Byte(byteValue: byte)
    | Short(shortValue: int16)
    | Integer(intValue: int32)
    | Long(longValue: int64)
    | Chars(stringValue: JString)
    | ByteArray(bytes: seq<byte>)
    | OtherObject(handle: nat)

  /** `value instanceof Number` for the kinds the model represents. */
  predicate IsNumber(v: Value) {
    v.Byte? || v.Short? || v.Integer? || v.Long?
  }

  /** The mathematical value of a number. */
  function NumericValue(v: Value): int
    requires IsNumber(v)
  {
    match v
    case Byte(b) => b
    case Short(s) => s
    case Integer(i) => i
    case Long(l) => l
  }

  /** `Number.intValue()`: the low 32 bits of the number, which is the
      number itself whenever it fits in an `int`. */
  function IntValue(v: Value): (r: int32)
    requires IsNumber(v)
    ensures (r - NumericValue(v)) % TwoTo32 == 0
    ensures -TwoTo31 <= NumericValue(v) < TwoTo31 ==> r == NumericValue(v)
  {
    match v
    case Byte(b) => b
    case Short(s) => s
    case Integer(i) => i
    case Long(l) =>
      if -TwoTo31 <= l < TwoTo31 then Wrap32Identity(l); Wrap32(l) else Wrap32(l)
  }

  /** A native destination: exactly one of the four kinds, with its name. */
  datatype Destination =
    | Queue(name: JString)
    | Topic(name: JString)
    | TemporaryQueue(name: JString)
    | TemporaryTopic(name: JString)

  /** A destination object of another JMS provider, known only by identity. */
  datatype ForeignDestination = ForeignDestination(handle: nat)

  /** The destination conversion the message model calls: it maps a
      (possibly absent) foreign destination to a native one or throws. */
  type DestinationTransform = Option<ForeignDestination> -> Result<Option<Destination>>

  /** The blob transfer policy a connection hands to a blob downloader. */
  datatype BlobTransferPolicy = BlobTransferPolicy(handle: nat)

  /** What the message model reads from the connection it belongs to. */
  datatype Connection = Connection(useCompression: bool, blobTransferPolicy: BlobTransferPolicy)
}
