/** The native message the transformation builds: the JMS header fields,
    the user properties, the connection it belongs to and a body whose
    constructor names the native message kind. */
module Commands {
  import opened Jms
  import opened TextMessage

  /** The body of each native message kind. A text body is the text
      message object itself, with its lazily encoded state. */
  datatype Body =
    | PlainBody                                     // ActiveMQMessage: headers only
    | BytesBody(data: seq<byte>)                    // ActiveMQBytesMessage
    | MapBody(entries: map<JString, Value>)          // ActiveMQMapMessage
    | ObjectBody(obj: Value, stored: bool)          // ActiveMQObjectMessage; `stored`: serialised form materialised
    | StreamBody(values: seq<Value>)                // ActiveMQStreamMessage
    | TextBody(message: ActiveMQTextMessage)        // ActiveMQTextMessage
    | BlobBody(url: Option<JString>, downloader: Option<BlobTransferPolicy>)  // ActiveMQBlobMessage

  class ActiveMQMessage {
    var connection: Option<Connection>
    var body: Body
    var messageId: Option<JString>
    var correlationId: Option<JString>
    var replyTo: Option<Destination>
    var destination: Option<Destination>
    var deliveryMode: int32
    var deliveryTime: int64
    var redelivered: bool
    var jmsType: Option<JString>
    var expiration: int64
    var priority: int32
    var timestamp: int64
    var properties: map<JString, Value>

    /** A new message of the kind `body` names, with no connection, no
        properties and an unset header. */
    constructor (body: Body)
      ensures this.body == body && connection == None && properties == map[]
      ensures messageId == None && correlationId == None && replyTo == None && destination == None
      ensures deliveryMode == 0 && deliveryTime == 0 && !redelivered && jmsType == None
      ensures expiration == 0 && priority == 0 && timestamp == 0
    {
      this.body := body;
      connection := None;
      messageId := None;
      correlationId := None;
      replyTo := None;
      destination := None;
      deliveryMode := 0;
      deliveryTime := 0;
      redelivered := false;
      jmsType := None;
      expiration := 0;
      priority := 0;
      timestamp := 0;
      properties := map[];
    }
  }
}
