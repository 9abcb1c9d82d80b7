/**
 * The consumer mixin of kafka-avro: `getConsumer` fills in the broker list and
 * wraps the transport's `on`, so that every `data` message is decorated in
 * place with `parsed`, `parsedKey`, `schemaId` and `schemaIdKey` before the
 * caller's handler sees it.
 *
 * The UTF-8 conversion of a Buffer, `JSON.parse` and the magic-byte codec are
 * supplied as `Collaborators`; the schema caches come from a
 * `SchemaRegistry.Registry`.
 */
module KafkaConsumer {
  import opened Base
  import SR = SchemaRegistry

  newtype byte = x: int | 0 <= x < 256

  /** A key or value that is truthy but not a Buffer (a non-empty string, say); never inspected. */
  type PlainValue(==)

  /** What `JSON.parse` builds; never inspected. */
  type JsonValue(==)

  /** What the codec decodes a Buffer into; never inspected. */
  type AvroValue(==)

  /** A message's key or value as the transport delivers it. */
  datatype Payload =
    | Falsy                     // null, undefined or the empty string
    | Buffer(bytes: seq<byte>)  // a Buffer (always truthy, even when empty)
    | Plain(value: PlainValue)  // any other truthy value
  {
    predicate Truthy() { !Falsy? }
  }

  /** The value of a decorated field. */
  datatype Field =
    | Undefined              // never assigned
    | Null
    | Json(json: JsonValue)  // JSON.parse of the Buffer's UTF-8 text
    | Text(text: string)     // the Buffer's UTF-8 text, when it is not JSON
    | Raw(raw: PlainValue)   // a non-Buffer key or value, copied as is
    | Avro(avro: AvroValue)  // decoded by the codec

  datatype IdField = IdUndefined | IdNull | Id(id: int)

  datatype JsonOutcome = JsonParsed(json: JsonValue) | JsonSyntaxError | JsonOtherError

  datatype DecodeOutcome = DecodeOk(value: AvroValue, schemaId: int) | DecodeThrows

  /** The foreign code the decoration calls. */
  datatype Collaborators = Collaborators(
    utf8: seq<byte> -> string,                                                  // buffer.toString('utf-8')
    jsonParse: string -> JsonOutcome,                                           // JSON.parse
    fromMessageBuffer: (Option<SR.AvroType>, Payload, SR.Cache) -> DecodeOutcome)  // magicByte.fromMessageBuffer

  /** The four fields the decoration writes, as they stand at one moment. */
  datatype Decoration = Decoration(parsed: Field, parsedKey: Field, schemaId: IdField, schemaIdKey: IdField)

  /** The result of `deserialize`: the codec's object, or null when the codec threw. */
  datatype Decoded = Decoded(value: AvroValue, schemaId: int)

  /** The result of `_deserializeType`. */
  datatype TypedValue = TypedValue(value: Field, schemaId: IdField)

  // ---------------------------------------------------------------------
  // The decoration as values
  // ---------------------------------------------------------------------

  /**
   * The fallback used when no schema is cached: null for a falsy payload,
   * the JSON of a Buffer's text, the text itself when that is not JSON,
   * null again for any other parse error, and a non-Buffer copied as is.
   */
  function Fallback(c: Collaborators, p: Payload): (r: Field)
    ensures r != Undefined && !r.Avro?
    ensures r.Raw? <==> p.Plain?
    ensures p.Falsy? ==> r == Null
    ensures p.Plain? ==> r == Raw(p.value)
    ensures p.Buffer? ==>
      var text := c.utf8(p.bytes);
      && (c.jsonParse(text).JsonParsed? <==> r.Json?)
      && (c.jsonParse(text).JsonParsed? ==> r == Json(c.jsonParse(text).json))
      && (c.jsonParse(text) == JsonSyntaxError <==> r.Text?)
      && (c.jsonParse(text) == JsonSyntaxError ==> r == Text(text))
      && (c.jsonParse(text) == JsonOtherError <==> r == Null)
  {
    match p
    case Falsy => Null
    case Plain(v) => Raw(v)
    case Buffer(bytes) =>
      var text := c.utf8(bytes);
      match c.jsonParse(text)
      case JsonParsed(j) => Json(j)
      case JsonSyntaxError => Text(text)
      case JsonOtherError => Null
  }

  /** `deserialize`: the key when `isKey` is true, the value otherwise; a codec exception becomes null. */
  function Deserialize(c: Collaborators, avroType: Option<SR.AvroType>, message: Message, isKey: bool, sr: SR.Cache): (r: Option<Decoded>)
    ensures var input := if isKey then message.key else message.value;
      && (r.Some? <==> c.fromMessageBuffer(avroType, input, sr).DecodeOk?)
      && (r.Some? ==> (r.value.value == c.fromMessageBuffer(avroType, input, sr).value &&
                       r.value.schemaId == c.fromMessageBuffer(avroType, input, sr).schemaId))
  {
    match c.fromMessageBuffer(avroType, if isKey then message.key else message.value, sr)
    case DecodeThrows => None
    case DecodeOk(v, id) => Some(Decoded(v, id))
  }

  /** `_deserializeType`: value and schema id, both null together when decoding failed. */
  function DeserializeType(c: Collaborators, avroType: Option<SR.AvroType>, message: Message, isKey: bool, sr: SR.Cache): (r: TypedValue)
    ensures r.value.Null? <==> r.schemaId.IdNull?
    ensures r.value.Null? <==> Deserialize(c, avroType, message, isKey, sr).None?
    ensures r.value.Avro? || r.value.Null?
    ensures Deserialize(c, avroType, message, isKey, sr).Some? ==>
      r.value == Avro(Deserialize(c, avroType, message, isKey, sr).value.value) &&
      r.schemaId == Id(Deserialize(c, avroType, message, isKey, sr).value.schemaId)
  {
    match Deserialize(c, avroType, message, isKey, sr)
    case None => TypedValue(Null, IdNull)
    case Some(d) => TypedValue(Avro(d.value), Id(d.schemaId))
  }

  /**
   * What the `data` listener of `_onWrapper` leaves in the four fields,
   * given the cached key and value schemas of the message's topic and the
   * fields as they stood before.
   */
  function Decorate(c: Collaborators, keySchema: Option<SR.AvroType>, valueSchema: Option<SR.AvroType>,
                    sr: SR.Cache, message: Message, before: Decoration): (after: Decoration)
    // the value is always written, the key whenever no key schema is cached
    ensures after.parsed != Undefined
    ensures keySchema.None? ==> after.parsedKey != Undefined
    // without a value schema: the fallbacks, and no schema ids
    ensures valueSchema.None? ==>
      && after.parsed == Fallback(c, message.value)
      && after.parsedKey == (if keySchema.None? then Fallback(c, message.key) else before.parsedKey)
      && after.schemaId == before.schemaId
      && after.schemaIdKey == before.schemaIdKey
    // with a value schema: the value is decoded
    ensures valueSchema.Some? ==>
      TypedValue(after.parsed, after.schemaId) == DeserializeType(c, valueSchema, message, false, sr)
    // ... and a truthy key is decoded with whatever key schema there is, even none
    ensures valueSchema.Some? && message.key.Truthy() ==>
      TypedValue(after.parsedKey, after.schemaIdKey) == DeserializeType(c, keySchema, message, true, sr)
    ensures valueSchema.Some? && !message.key.Truthy() ==>
      && after.parsedKey == (if keySchema.None? then Null else before.parsedKey)
      && after.schemaIdKey == before.schemaIdKey
  {
    var parsedKey := if keySchema.None? then Fallback(c, message.key) else before.parsedKey;
    if valueSchema.None? then
      Decoration(Fallback(c, message.value), parsedKey, before.schemaId, before.schemaIdKey)
    else
      var value := DeserializeType(c, valueSchema, message, false, sr);
      if message.key.Truthy() then
        var key := DeserializeType(c, keySchema, message, true, sr);
        Decoration(value.value, key.value, value.schemaId, key.schemaId)
      else
        Decoration(value.value, parsedKey, value.schemaId, before.schemaIdKey)
  }

  /**
   * A message decorated twice (two `data` listeners on one consumer share the
   * message object) ends up exactly as after the first decoration.
   */
  lemma DecorateIsIdempotent(c: Collaborators, keySchema: Option<SR.AvroType>, valueSchema: Option<SR.AvroType>,
                             sr: SR.Cache, message: Message, before: Decoration)
    ensures var once := Decorate(c, keySchema, valueSchema, sr, message, before);
            Decorate(c, keySchema, valueSchema, sr, message, once) == once
  {
  }

  /**
   * A Buffer key that is not JSON, on a topic with a value schema and no key
   * schema: the fallback turns it into its text, but the re-decode that
   * follows overwrites that with null whenever the codec cannot decode it
   * without a schema.
   */
  lemma KeyFallbackIsOverwritten(c: Collaborators, valueSchema: SR.AvroType, sr: SR.Cache, message: Message, before: Decoration)
    requires message.key.Buffer?
    requires c.jsonParse(c.utf8(message.key.bytes)) == JsonSyntaxError
    requires c.fromMessageBuffer(None, message.key, sr) == DecodeThrows
    ensures Fallback(c, message.key) == Text(c.utf8(message.key.bytes))
    ensures var after := Decorate(c, None, Some(valueSchema), sr, message, before);
            after.parsedKey == Null && after.schemaIdKey == IdNull
  {
    assert DeserializeType(c, None, message, true, sr) == TypedValue(Null, IdNull);
  }

  // ---------------------------------------------------------------------
  // Consumer options
  // ---------------------------------------------------------------------

  const BrokerListKey := "metadata.broker.list"

  /** The defaulting in `getConsumer`: a missing or empty broker list becomes the configured brokers. */
  function WithBrokerList(opts: map<string, string>, kafkaBrokerUrl: string): (r: map<string, string>)
    ensures BrokerListKey in r
    ensures BrokerListKey in opts && opts[BrokerListKey] != "" ==> r[BrokerListKey] == opts[BrokerListKey]
    ensures !(BrokerListKey in opts && opts[BrokerListKey] != "") ==> r[BrokerListKey] == kafkaBrokerUrl
    ensures forall k :: k != BrokerListKey ==> (k in r <==> k in opts)
    ensures forall k :: k != BrokerListKey && k in opts ==> r[k] == opts[k]
  {
    if BrokerListKey in opts && opts[BrokerListKey] != "" then opts
    else opts[BrokerListKey := kafkaBrokerUrl]
  }

  /** Filling in the broker list a second time changes nothing. */
  lemma WithBrokerListIsIdempotent(opts: map<string, string>, kafkaBrokerUrl: string)
    ensures WithBrokerList(WithBrokerList(opts, kafkaBrokerUrl), kafkaBrokerUrl) == WithBrokerList(opts, kafkaBrokerUrl)
  {
  }

  // ---------------------------------------------------------------------
  // The objects
  // ---------------------------------------------------------------------

  /** A message as the transport hands it to `data` listeners; the core adds four fields in place. */
  class Message {
    const topic: string
    const partition: int
    const offset: int
    const key: Payload
    const value: Payload
    var parsed: Field
    var parsedKey: Field
    var schemaId: IdField
    var schemaIdKey: IdField

    constructor (topic: string, partition: int, offset: int, key: Payload, value: Payload)
      ensures this.topic == topic && this.partition == partition && this.offset == offset
      ensures this.key == key && this.value == value
      ensures Fields() == Decoration(Undefined, Undefined, IdUndefined, IdUndefined)
    {
      this.topic, this.partition, this.offset, this.key, this.value := topic, partition, offset, key, value;
      parsed, parsedKey, schemaId, schemaIdKey := Undefined, Undefined, IdUndefined, IdUndefined;
    }

    function Fields(): Decoration
      reads this
    {
      Decoration(parsed, parsedKey, schemaId, schemaIdKey)
    }
  }

  /** One call of a handler: the message and its four fields as they stood at the call. */
  datatype Delivery = Delivery(message: Message, decoration: Decoration)

  /** A caller's event callback; it remembers every call. */
  class Handler {
    var deliveries: seq<Delivery>

    constructor ()
      ensures deliveries == []
    {
      deliveries := [];
    }

    method Call(message: Message)
      modifies this
      ensures deliveries == old(deliveries) + [Delivery(message, message.Fields())]
    {
      deliveries := deliveries + [Delivery(message, message.Fields())];
    }
  }

  /** What a listener registered with the transport's original `on` does. */
  datatype Callback =
    | UserCallback(handler: Handler)                  // the caller's callback, untouched
    | Decorating(consumer: Consumer, handler: Handler) // the `data` wrapper of `_onWrapper`
    | LogDisconnect                                   // the `disconnect` logger of `getConsumer`
    | LogError                                        // the `error` logger of `getConsumer`

  datatype Listener = Listener(eventName: string, callback: Callback)

  /** A transport consumer: its options, its listeners, and whether `on` has been wrapped. */
  class ConsumerInstance {
    const options: map<string, string>
    var listeners: seq<Listener>
    var onWrapped: bool

    constructor (options: map<string, string>)
      ensures this.options == options && listeners == [] && !onWrapped
    {
      this.options := options;
      listeners := [];
      onWrapped := false;
    }

    /** The transport's own `on` (kept as `__kafkaAvro_on`). */
    method OriginalOn(eventName: string, callback: Callback)
      modifies this`listeners
      ensures listeners == old(listeners) + [Listener(eventName, callback)]
    {
      listeners := listeners + [Listener(eventName, callback)];
    }
  }

  /** The caller's consumer options object, which `getConsumer` updates in place. */
  class ConsumerOptions {
    var entries: map<string, string>

    constructor (entries: map<string, string>)
      ensures this.entries == entries
    {
      this.entries := entries;
    }
  }

  /** The consumer mixin of a kafka-avro instance. */
  class Consumer {
    const sr: SR.Registry
    const kafkaBrokerUrl: string
    const codec: Collaborators
    var consumers: seq<ConsumerInstance>

    constructor (sr: SR.Registry, kafkaBrokerUrl: string, codec: Collaborators)
      ensures this.sr == sr && this.kafkaBrokerUrl == kafkaBrokerUrl && this.codec == codec
      ensures consumers == []
    {
      this.sr, this.kafkaBrokerUrl, this.codec := sr, kafkaBrokerUrl, codec;
      consumers := [];
    }

    /** `getConsumer`: default the broker list, create and remember the consumer, add loggers, wrap `on`. */
    method GetConsumer(opts: ConsumerOptions) returns (consumer: ConsumerInstance)
      modifies opts, this`consumers
      ensures opts.entries == WithBrokerList(old(opts.entries), kafkaBrokerUrl)
      ensures fresh(consumer)
      ensures consumers == old(consumers) + [consumer]
      ensures consumer.options == opts.entries
      ensures consumer.listeners == [Listener("disconnect", LogDisconnect), Listener("error", LogError)]
      ensures consumer.onWrapped
    {
      if !(BrokerListKey in opts.entries && opts.entries[BrokerListKey] != "") {
        opts.entries := opts.entries[BrokerListKey := kafkaBrokerUrl];
      }
      consumer := new ConsumerInstance(opts.entries);
      consumers := consumers + [consumer];
      consumer.OriginalOn("disconnect", LogDisconnect);
      consumer.OriginalOn("error", LogError);
      consumer.onWrapped := true;
    }

    /** `_onWrapper`: `data` callbacks get the decorating wrapper, every other event passes through. */
    method OnWrapper(consumerInstance: ConsumerInstance, eventName: string, handler: Handler)
      modifies consumerInstance`listeners
      ensures eventName != "data" ==>
        consumerInstance.listeners == old(consumerInstance.listeners) + [Listener(eventName, UserCallback(handler))]
      ensures eventName == "data" ==>
        consumerInstance.listeners == old(consumerInstance.listeners) + [Listener("data", Decorating(this, handler))]
    {
      if eventName != "data" {
        consumerInstance.OriginalOn(eventName, UserCallback(handler));
        return;
      }
      consumerInstance.OriginalOn("data", Decorating(this, handler));
    }

    /**
     * The body of the decorating `data` listener: rewrite the message's four
     * fields in place, then call the handler exactly once.
     */
    method OnData(handler: Handler, message: Message)
      modifies message, handler
      ensures message.Fields() ==
        Decorate(codec, Get(sr.keySchemas, message.topic), Get(sr.valueSchemas, message.topic),
                 sr.Snapshot(), message, old(message.Fields()))
      ensures handler.deliveries == old(handler.deliveries) + [Delivery(message, message.Fields())]
    {
      if message.topic !in sr.keySchemas {
        message.parsedKey := Null;
        if message.key.Truthy() {
          match message.key
          case Buffer(bytes) =>
            var text := codec.utf8(bytes);
            match codec.jsonParse(text) {
              case JsonParsed(j) => message.parsedKey := Json(j);
              case JsonSyntaxError => message.parsedKey := Text(text);
              case JsonOtherError =>  // logged; parsedKey stays null
            }
          case Plain(v) =>
            message.parsedKey := Raw(v);
        }
      }

      if message.topic !in sr.valueSchemas {
        message.parsed := Null;
        if message.value.Truthy() {
          match message.value
          case Buffer(bytes) =>
            var text := codec.utf8(bytes);
            match codec.jsonParse(text) {
              case JsonParsed(j) => message.parsed := Json(j);
              case JsonSyntaxError => message.parsed := Text(text);
              case JsonOtherError =>  // logged; parsed stays null
            }
          case Plain(v) =>
            message.parsed := Raw(v);
        }
        handler.Call(message);
        return;
      }

      var decodedValue := DeserializeType(codec, Some(sr.valueSchemas[message.topic]), message, false, sr.Snapshot());
      message.parsed := decodedValue.value;
      message.schemaId := decodedValue.schemaId;

      if message.key.Truthy() {
        var decodedKey := DeserializeType(codec, Get(sr.keySchemas, message.topic), message, true, sr.Snapshot());
        message.parsedKey := decodedKey.value;
        message.schemaIdKey := decodedKey.schemaId;
      }

      handler.Call(message);
    }
  }
}
