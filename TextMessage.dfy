/** The native text message and its lazily materialised body. The body is
    held as the decoded `text`, as the encoded `content` bytes (deflated
    when `compressed`), or as both: `storeContent` encodes without dropping
    the text, and only `storeContentAndClear` (run before marshalling)
    drops it. */
module TextMessage {
  import opened Jms

  /** The wire type code of a text message. */
  const DataStructureType: byte := 28

  /** The library codecs the body relies on: modified UTF-8 with a length
      prefix (`writeUTF8`/`readUTF8`, where a null string has its own
      encoding) and deflate/inflate. Reading may fail on malformed bytes. */
  datatype Codec = Codec(
    writeUtf8: JString -> seq<byte>,
    readUtf8: seq<byte> -> Result<Option<JString>>,
    deflate: seq<byte> -> seq<byte>,
    inflate: seq<byte> -> Result<seq<byte>>)

  /** What the body assumes of its codecs: reading what was written gives
      back the string, and inflating what was deflated gives the bytes. */
  ghost predicate Lossless(codec: Codec) {
    && (forall s :: codec.readUtf8(codec.writeUtf8(s)) == Ok(Some(s)))
    && (forall b :: codec.inflate(codec.deflate(b)) == Ok(b))
  }

  /** The bytes `storeContent` writes for `text`: UTF-8, then deflated when
      the connection compresses. */
  function Encode(codec: Codec, text: JString, compress: bool): seq<byte> {
    var utf8 := codec.writeUtf8(text);
    if compress then codec.deflate(utf8) else utf8
  }

  /** `decodeContent`: inflate first when the body is compressed, then read
      the string; absent content decodes to an absent string. */
  function DecodeContent(codec: Codec, bodyAsBytes: Option<seq<byte>>, compressed: bool): (r: Result<Option<JString>>)
    ensures bodyAsBytes.None? ==> r == Ok(None)
    ensures bodyAsBytes.Some? && !compressed ==> r == codec.readUtf8(bodyAsBytes.value)
    ensures bodyAsBytes.Some? && compressed && codec.inflate(bodyAsBytes.value).Ok? ==>
      r == codec.readUtf8(codec.inflate(bodyAsBytes.value).value)
    ensures bodyAsBytes.Some? && compressed && codec.inflate(bodyAsBytes.value).Err? ==>
      r == Err(codec.inflate(bodyAsBytes.value).error)
  {
    match bodyAsBytes
    case None => Ok(None)
    case Some(bytes) =>
      if compressed then
        match codec.inflate(bytes)
        case Ok(utf8) => codec.readUtf8(utf8)
        case Err(e) => Err(e)
      else codec.readUtf8(bytes)
  }

  /** Decoding inverts encoding, with or without compression. */
  lemma DecodeInvertsEncode(codec: Codec, text: JString, compress: bool)
    requires Lossless(codec)
    ensures DecodeContent(codec, Some(Encode(codec, text, compress)), compress) == Ok(Some(text))
  {
    var utf8 := codec.writeUtf8(text);
    assert codec.readUtf8(utf8) == Ok(Some(text));
    if compress {
      assert codec.inflate(codec.deflate(utf8)) == Ok(utf8);
    }
  }

  class ActiveMQTextMessage {
    var connection: Option<Connection>
    var readOnlyBody: bool
    var text: Option<JString>
    var content: Option<seq<byte>>
    var compressed: bool
    var size: int32
    var marshalledProperties: Option<seq<byte>>

    /** A new, writable message with an empty body. */
    constructor ()
      ensures connection == None && !readOnlyBody
      ensures text == None && content == None && !compressed
      ensures size == 0 && marshalledProperties == None
    {
      connection := None;
      readOnlyBody := false;
      text := None;
      content := None;
      compressed := false;
      size := 0;
      marshalledProperties := None;
    }

    /** The connection asks for compressed bodies. */
    predicate UsesCompression()
      reads this
    {
      connection.Some? && connection.value.useCompression
    }

    method SetConnection(c: Option<Connection>)
      modifies this`connection
      ensures connection == c
    {
      connection := c;
    }

    /** `copy()`: a new text message with the same text; the base-class
        fields are copied shallowly. */
    method Copy() returns (c: ActiveMQTextMessage)
      ensures fresh(c)
      ensures c.text == text && c.content == content && c.compressed == compressed
      ensures c.connection == connection && c.readOnlyBody == readOnlyBody
      ensures c.size == size && c.marshalledProperties == marshalledProperties
    {
      c := new ActiveMQTextMessage();
      c.connection := connection;
      c.readOnlyBody := readOnlyBody;
      c.content := content;
      c.compressed := compressed;
      c.size := size;
      c.marshalledProperties := marshalledProperties;
      c.text := text;
    }

    /** `setText`: refused on a read-only body before anything changes;
        otherwise the text replaces the body and the encoded content is
        dropped. */
    method SetText(value: Option<JString>) returns (r: Outcome)
      modifies this`text, this`content
      ensures r == (if readOnlyBody then Fail(MessageNotWriteable) else Pass)
      ensures readOnlyBody ==> text == old(text) && content == old(content)
      ensures !readOnlyBody ==> text == value && content == None
      ensures !readOnlyBody && value.Some? ==> !IsContentMarshalled()
    {
      if readOnlyBody {
        return Fail(MessageNotWriteable);
      }
      text := value;
      content := None;
      r := Pass;
    }

    /** `getText`: with no text but some content, decode the content, cache
        the result as the text and drop the content and the compressed flag;
        a decoding failure throws and changes nothing. Otherwise return the
        text as it is. */
    method GetText(codec: Codec) returns (r: Result<Option<JString>>)
      modifies this`text, this`content, this`compressed
      ensures old(text).None? && old(content).Some? ==>
        r == DecodeContent(codec, old(content), old(compressed)) &&
        if r.Ok? then text == r.value && content == None && !compressed
        else text == old(text) && content == old(content) && compressed == old(compressed)
      ensures !(old(text).None? && old(content).Some?) ==>
        r == Ok(old(text)) && text == old(text) && content == old(content) && compressed == old(compressed)
    {
      var bytes := content;
      if text.None? && bytes.Some? {
        var decoded := DecodeContent(codec, bytes, compressed);
        if decoded.Err? {
          return decoded;
        }
        text := decoded.value;
        content := None;
        compressed := false;
      }
      r := Ok(text);
    }

    /** `storeContent`: with a text and no content yet, encode the text
        (deflated when the connection compresses, which also sets the
        compressed flag) and keep the text. Otherwise nothing changes. The
        flag is never cleared here. */
    method StoreContent(codec: Codec)
      modifies this`content, this`compressed
      ensures old(content).None? && text.Some? ==>
        content == Some(Encode(codec, text.value, UsesCompression())) &&
        compressed == (old(compressed) || UsesCompression())
      ensures !(old(content).None? && text.Some?) ==>
        content == old(content) && compressed == old(compressed)
      ensures IsContentMarshalled()
    {
      var t := text;
      if content.None? && t.Some? {
        var compress := connection.Some? && connection.value.useCompression;
        if compress {
          compressed := true;
        }
        content := Some(Encode(codec, t.value, compress));
      }
    }

    /** `storeContentAndClear`: store the content, then drop the text. When
        the compressed flag was not left over from an earlier compression
        this connection would not repeat, the content decodes back to the
        text it replaced. */
    method StoreContentAndClear(codec: Codec)
      modifies this`text, this`content, this`compressed
      ensures text == None
      ensures old(content).None? && old(text).Some? ==>
        content == Some(Encode(codec, old(text).value, UsesCompression())) &&
        compressed == (old(compressed) || UsesCompression())
      ensures !(old(content).None? && old(text).Some?) ==>
        content == old(content) && compressed == old(compressed)
      ensures Lossless(codec) && old(content).None? && (old(compressed) ==> UsesCompression()) ==>
        DecodeContent(codec, content, compressed) == Ok(old(text))
      ensures IsContentMarshalled()
    {
      StoreContent(codec);
      if old(content).None? && old(text).Some? {
        ghost var z := UsesCompression();
        if Lossless(codec) && (old(compressed) ==> z) {
          DecodeInvertsEncode(codec, old(text).value, z);
        }
      }
      text := None;
    }

    /** `beforeMarshall`: the body is put in its wire form before the
        message is written. */
    method BeforeMarshall(codec: Codec)
      modifies this`text, this`content, this`compressed
      ensures text == None
      ensures old(content).None? && old(text).Some? ==>
        content == Some(Encode(codec, old(text).value, UsesCompression())) &&
        compressed == (old(compressed) || UsesCompression())
      ensures !(old(content).None? && old(text).Some?) ==>
        content == old(content) && compressed == old(compressed)
      ensures Lossless(codec) && old(content).None? && (old(compressed) ==> UsesCompression()) ==>
        DecodeContent(codec, content, compressed) == Ok(old(text))
      ensures IsContentMarshalled()
    {
      StoreContentAndClear(codec);
    }

    /** `clearUnMarshalledState`: the decoded text is dropped, the content
        is kept. */
    method ClearUnMarshalledState()
      modifies this`text
      ensures text == None && IsContentMarshalled()
    {
      text := None;
    }

    /** `clearBody`: the body becomes the empty, writable body of a new
        message; the compressed flag is not touched. */
    method ClearBody()
      modifies this`text, this`content, this`readOnlyBody
      ensures text == None && content == None && !readOnlyBody
      ensures IsContentMarshalled()
    {
      content := None;
      readOnlyBody := false;
      text := None;
    }

    /** `isContentMarshalled`: the body needs no encoding before it is
        sent, that is, it is not held as text alone. */
    predicate IsContentMarshalled()
      reads this
      ensures IsContentMarshalled() <==> !(text.Some? && content.None?)
    {
      content.Some? || text.None?
    }

    /** The length of the marshalled properties, zero when there are none. */
    function PropertiesLength(): nat
      reads this
    {
      if marshalledProperties.Some? then |marshalledProperties.value| else 0
    }

    /** `getSize`: a body held as text alone with no cached size gets the
        estimate minimum size + properties length + two bytes per UTF-16
        unit, computed in `int` arithmetic; otherwise the cached size is
        returned unchanged. */
    method GetSize(minimumMessageSize: int32) returns (r: int32)
      modifies this`size
      ensures old(size) == 0 && content.None? && text.Some? ==>
        size == Wrap32(minimumMessageSize + PropertiesLength() + 2 * |text.value|)
      ensures !(old(size) == 0 && content.None? && text.Some?) ==> size == old(size)
      ensures r == size
    {
      var t := text;
      if size == 0 && content.None? && t.Some? {
        size := minimumMessageSize;
        var p := 0;
        if marshalledProperties.Some? {
          p := |marshalledProperties.value|;
          size := Wrap32(size + p);
        } else {
          Wrap32Identity(size);
        }
        var doubled := Wrap32(|t.value| * 2);
        Wrap32Sum(minimumMessageSize + p, |t.value| * 2);
        size := Wrap32(size + doubled);
      }
      r := size;
    }
  }

  /** Setting the text of a writable message and then reading it gives the
      text back. */
  method SetThenGet(m: ActiveMQTextMessage, codec: Codec, value: Option<JString>) returns (r: Result<Option<JString>>)
    requires !m.readOnlyBody
    modifies m
    ensures r == Ok(value)
    ensures m.text == value && m.content == None
  {
    var outcome := m.SetText(value);
    r := m.GetText(codec);
  }

  /** Marshalling a body held as text, then reading it, gives the original
      text back with or without compression, provided any compressed flag
      left on the body is one this connection would set again. */
  method MarshalThenRead(m: ActiveMQTextMessage, codec: Codec) returns (r: Result<Option<JString>>)
    requires Lossless(codec)
    requires m.content == None && (m.compressed ==> m.UsesCompression())
    modifies m
    ensures r == Ok(old(m.text))
    ensures m.text == old(m.text) && m.content == None
  {
    m.BeforeMarshall(codec);
    r := m.GetText(codec);
  }

  /** The same round trip when `storeContent` ran first and left the body
      held as both text and content: marshalling keeps that content, and
      reading decodes it back to the text. */
  method StoreMarshalThenRead(m: ActiveMQTextMessage, codec: Codec) returns (r: Result<Option<JString>>)
    requires Lossless(codec)
    requires m.content == None && (m.compressed ==> m.UsesCompression())
    modifies m
    ensures r == Ok(old(m.text))
    ensures m.text == old(m.text) && m.content == None
  {
    m.StoreContent(codec);
    if old(m.text).Some? {
      DecodeInvertsEncode(codec, old(m.text).value, m.UsesCompression());
    }
    m.BeforeMarshall(codec);
    r := m.GetText(codec);
  }
}
