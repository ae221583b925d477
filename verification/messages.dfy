/**
 * Messages, destinations and the envelope codec.
 *
 * The wire form of a message is JSON text. The model keeps the structure of that text instead
 * of its characters: a payload is either a well-formed envelope carrying body, properties and
 * headers, or text that does not parse as one.
 */
module Messages {
  import opened Wrappers

  /** A message as the application sees it (RedisMessage). */
  datatype Message = Message(body: string, properties: map<string, string>, headers: map<string, string>)

  /** A queue, identified by its name (RedisDestination). */
  datatype Destination = Destination(name: string)

  /** The errors a consumer operation can report. */
  datatype Error = InvalidArgument | MalformedEnvelope

  /** What is stored in a broker list. */
  datatype Payload =
    | Envelope(body: string, properties: map<string, string>, headers: map<string, string>)
    | Unparsable(text: string)

  /** Decoding fails exactly on text that is not an envelope. */
  function Decode(p: Payload): (r: Result<Message, Error>)
    ensures r.Err? <==> p.Unparsable?
    ensures r.Err? ==> r.error == MalformedEnvelope
  {
    match p
    case Envelope(body, properties, headers) => Ok(Message(body, properties, headers))
    case Unparsable(_) => Err(MalformedEnvelope)
  }

  /** Encoding is lossless: body, properties and headers all survive the round trip. */
  function Encode(m: Message): (p: Payload)
    ensures Decode(p) == Ok(m)
  {
    Envelope(m.body, m.properties, m.headers)
  }

  /** Every payload that decodes is the encoding of the message it decodes to. */
  lemma EncodeDecode(p: Payload)
    ensures Decode(p).Ok? ==> Encode(Decode(p).value) == p
  {
  }
}
