/** `MqTemplate`: converts Spring messages with the shared converter and sends
    them through the broker `Producer`, directly or inside
    `producerRetryTemplate.execute`. The producer client and the retry
    template's `execute` are collaborators whose outcomes are given as
    functions; the calls made on them are recorded in a ghost log. Each send
    path is specified by a function giving the calls it makes and its
    result. */
module Producer {
  import opened Common
  import opened Properties
  import opened RetrySelection
  import opened Converter

  datatype ProducerRef = ProducerRef(name: string)

  datatype SendResult = SendResult(messageId: string)

  datatype SendCallback = SendCallback(name: string)

  /** One call into the broker `Producer`. */
  datatype ProducerOp =
    | OpSend(message: OnsMessage)
    | OpSendAsync(message: OnsMessage, callback: SendCallback)
    | OpSendOneway(message: OnsMessage)

  datatype ProducerCall =
    | StartProducer
    | ShutdownProducer
    | Called(op: ProducerOp)
      /** The call was handed to `producerRetryTemplate.execute` as its callback. */
    | ExecutedByRetry(template: RetryTemplate, op: ProducerOp)

  /** What the collaborators do: `producer.send`, `producer.sendOneway`, and
      what `execute` ends with for a callback (the callback's value, which
      may be null). */
  datatype ProducerEnv = ProducerEnv(
    send: OnsMessage -> Result<SendResult, Throwable>,
    sendOneway: OnsMessage -> Completion,
    execute: (RetryTemplate, ProducerOp) -> Result<Option<SendResult>, Throwable>)

  /** The calls a send path made and what it returned or threw. */
  datatype Sent<A> = Sent(calls: seq<ProducerCall>, result: Result<A, Throwable>)

  /** Header name `MessageHeaders.CONTENT_TYPE`. */
  const ContentType := "contentType"
  /** `MimeTypeUtils.APPLICATION_JSON_VALUE`. */
  const ApplicationJson := "application/json"
  const NullMessage := "`message` and `message.payload` cannot be null"
  const ProducerRequired := "Property 'producer' or 'orderProducer' is required"

  /** The header map of the payload overloads: `KEYS` only when the key has text. */
  function KeyHeaders(key: Option<string>): (h: map<string, HeaderValue>)
    ensures Keys in h <==> HasText(key)
    ensures Keys in h ==> h[Keys] == TextValue(key.value)
    ensures h.Keys <= {Keys}
  {
    if HasText(key) then map[Keys := TextValue(key.value)] else map[]
  }

  /** `doConvert(payload, headers, null)`: a `String` payload is kept, any
      other is written by Jackson (only a `JsonProcessingException` becomes a
      `RuntimeException`; anything else Jackson throws escapes unchanged);
      the headers are copied and `contentType` is set to `application/json`
      only when absent. */
  function DoConvert(payload: Option<Payload>, headers: map<string, HeaderValue>, json: Json): (r: Result<SpringMessage, Throwable>)
    ensures payload.Some? && payload.value.Text? ==> r.Ok? && r.value.payload == payload
    ensures r.Ok? <==> PayloadText(payload, json).Ok?
    ensures r.Ok? ==> r.value.payload == Some(Text(PayloadText(payload, json).value))
    ensures r.Err? && PayloadText(payload, json).error.JsonProcessing? ==>
      r.error == Runtime(PayloadText(payload, json).error)
    ensures r.Err? && !PayloadText(payload, json).error.JsonProcessing? ==>
      r.error == PayloadText(payload, json).error
    ensures r.Ok? ==> r.value.headers.Keys == headers.Keys + {ContentType}
    ensures r.Ok? ==> forall k :: k in headers ==> r.value.headers[k] == headers[k]
    ensures r.Ok? && ContentType !in headers ==> r.value.headers[ContentType] == TextValue(ApplicationJson)
  {
    match PayloadText(payload, json)
    case Err(e) => if e.JsonProcessing? then Err(Runtime(e)) else Err(e)
    case Ok(c) =>
      var copied := if ContentType in headers then headers else headers[ContentType := TextValue(ApplicationJson)];
      Ok(SpringMessage(Some(Text(c)), copied))
  }

  /** The null check shared by the three `Message` send paths. */
  predicate Rejected(message: Option<SpringMessage>)
  {
    message.None? || message.value.payload.None?
  }

  function Wrapped<A>(r: Result<A, Throwable>): (w: Result<A, Throwable>)
    ensures w.Ok? <==> r.Ok?
    ensures w.Ok? ==> w.value == r.value
    ensures w.Err? ==> w.error == Messaging(r.error)
  {
    match r
    case Ok(v) => Ok(v)
    case Err(e) => Err(Messaging(e))
  }

  /** `syncSend(destination, message)`. */
  function SyncSendSpec(producer: Option<ProducerRef>, template: Option<RetryTemplate>, cfg: ConverterConfig,
                        env: ProducerEnv, destination: string, message: Option<SpringMessage>): (s: Sent<SendResult>)
    ensures Rejected(message) ==> s == Sent([], Err(IllegalArgument(NullMessage)))
    ensures !Rejected(message) && s.result.Err? ==> s.result.error.Messaging?
    ensures |s.calls| <= 1
    ensures s.calls != [] ==> !Rejected(message) && OnsMessageOf(destination, message.value, cfg).Ok?
    ensures s.calls != [] && template.Some? ==>
      s.calls == [ExecutedByRetry(template.value, OpSend(OnsMessageOf(destination, message.value, cfg).value))]
    ensures s.calls != [] && template.None? ==>
      s.calls == [Called(OpSend(OnsMessageOf(destination, message.value, cfg).value))]
      && s.result == Wrapped(env.send(OnsMessageOf(destination, message.value, cfg).value))
    ensures s.result.Ok? ==> s.calls != []
    ensures !Rejected(message) && OnsMessageOf(destination, message.value, cfg).Err? ==>
      s == Sent([], Err(Messaging(OnsMessageOf(destination, message.value, cfg).error)))
    ensures !Rejected(message) && OnsMessageOf(destination, message.value, cfg).Ok? && template.Some? ==>
      var executed := env.execute(template.value, OpSend(OnsMessageOf(destination, message.value, cfg).value));
      |s.calls| == 1
      && (executed.Err? ==> s.result == Err(Messaging(executed.error)))
      && (executed == Ok(None) ==> s.result == Err(Messaging(NullPointer)))
      && (executed.Ok? && executed.value.Some? ==> s.result == Ok(executed.value.value))
    ensures !Rejected(message) && OnsMessageOf(destination, message.value, cfg).Ok? && template.None? ==>
      (producer.Some? <==> |s.calls| == 1) && (producer.None? ==> s.result == Err(Messaging(NullPointer)))
  {
    if Rejected(message) then Sent([], Err(IllegalArgument(NullMessage)))
    else
      match OnsMessageOf(destination, message.value, cfg)
      case Err(e) => Sent([], Err(Messaging(e)))
      case Ok(ons) =>
        match template
        case Some(t) =>
          Sent([ExecutedByRetry(t, OpSend(ons))],
               match env.execute(t, OpSend(ons))
               case Err(e) => Err(Messaging(e))
               case Ok(None) => Err(Messaging(NullPointer))
               case Ok(Some(res)) => Ok(res))
        case None =>
          if producer.None? then Sent([], Err(Messaging(NullPointer)))
          else Sent([Called(OpSend(ons))], Wrapped(env.send(ons)))
  }

  /** `asyncSend(destination, message, callback)`: `sendAsync` inside the
      retry template, but a blocking `send` without one. */
  function AsyncSendSpec(producer: Option<ProducerRef>, template: Option<RetryTemplate>, cfg: ConverterConfig,
                         env: ProducerEnv, destination: string, message: Option<SpringMessage>,
                         callback: SendCallback): (s: Sent<()>)
    ensures Rejected(message) ==> s == Sent([], Err(IllegalArgument(NullMessage)))
    ensures !Rejected(message) && s.result.Err? ==> s.result.error.Messaging?
    ensures |s.calls| <= 1
    ensures s.calls != [] ==> !Rejected(message) && OnsMessageOf(destination, message.value, cfg).Ok?
    ensures s.calls != [] && template.Some? ==>
      s.calls == [ExecutedByRetry(template.value, OpSendAsync(OnsMessageOf(destination, message.value, cfg).value, callback))]
    ensures s.calls != [] && template.None? ==>
      s.calls == [Called(OpSend(OnsMessageOf(destination, message.value, cfg).value))]
    ensures s.result.Ok? ==> s.calls != []
    ensures !Rejected(message) && OnsMessageOf(destination, message.value, cfg).Err? ==>
      s == Sent([], Err(Messaging(OnsMessageOf(destination, message.value, cfg).error)))
    ensures !Rejected(message) && OnsMessageOf(destination, message.value, cfg).Ok? && template.Some? ==>
      var executed := env.execute(template.value, OpSendAsync(OnsMessageOf(destination, message.value, cfg).value, callback));
      |s.calls| == 1 && (s.result.Ok? <==> executed.Ok?) && (executed.Err? ==> s.result == Err(Messaging(executed.error)))
    ensures !Rejected(message) && OnsMessageOf(destination, message.value, cfg).Ok? && template.None? && producer.Some? ==>
      var sent := env.send(OnsMessageOf(destination, message.value, cfg).value);
      |s.calls| == 1 && (s.result.Ok? <==> sent.Ok?) && (sent.Err? ==> s.result == Err(Messaging(sent.error)))
    ensures !Rejected(message) && OnsMessageOf(destination, message.value, cfg).Ok? && template.None? && producer.None? ==>
      s == Sent([], Err(Messaging(NullPointer)))
  {
    if Rejected(message) then Sent([], Err(IllegalArgument(NullMessage)))
    else
      match OnsMessageOf(destination, message.value, cfg)
      case Err(e) => Sent([], Err(Messaging(e)))
      case Ok(ons) =>
        match template
        case Some(t) =>
          Sent([ExecutedByRetry(t, OpSendAsync(ons, callback))],
               match env.execute(t, OpSendAsync(ons, callback))
               case Err(e) => Err(Messaging(e))
               case Ok(_) => Ok(()))
        case None =>
          if producer.None? then Sent([], Err(Messaging(NullPointer)))
          else
            Sent([Called(OpSend(ons))],
                 match env.send(ons)
                 case Err(e) => Err(Messaging(e))
                 case Ok(_) => Ok(()))
  }

  /** `sendOneWay(destination, message)`: the branch (a `sendOneway` inside
      the retry template, or a blocking `send` without one) and then one more
      `sendOneway`, as written. */
  function SendOneWaySpec(producer: Option<ProducerRef>, template: Option<RetryTemplate>, cfg: ConverterConfig,
                          env: ProducerEnv, destination: string, message: Option<SpringMessage>): (s: Sent<()>)
    ensures Rejected(message) ==> s == Sent([], Err(IllegalArgument(NullMessage)))
    ensures !Rejected(message) && s.result.Err? ==> s.result.error.Messaging?
    ensures |s.calls| <= 2
    ensures s.result.Ok? ==> !Rejected(message) && OnsMessageOf(destination, message.value, cfg).Ok?
    ensures s.result.Ok? ==>
      var ons := OnsMessageOf(destination, message.value, cfg).value;
      |s.calls| == 2 && s.calls[1] == Called(OpSendOneway(ons))
      && s.calls[0] == (if template.Some? then ExecutedByRetry(template.value, OpSendOneway(ons)) else Called(OpSend(ons)))
    ensures !Rejected(message) && OnsMessageOf(destination, message.value, cfg).Err? ==>
      s == Sent([], Err(Messaging(OnsMessageOf(destination, message.value, cfg).error)))
    ensures !Rejected(message) && OnsMessageOf(destination, message.value, cfg).Ok? && template.Some? ==>
      var ons := OnsMessageOf(destination, message.value, cfg).value;
      var executed := env.execute(template.value, OpSendOneway(ons));
      (executed.Err? ==> s == Sent([ExecutedByRetry(template.value, OpSendOneway(ons))], Err(Messaging(executed.error))))
      && (executed.Ok? && producer.None? ==>
            s == Sent([ExecutedByRetry(template.value, OpSendOneway(ons))], Err(Messaging(NullPointer))))
      && (executed.Ok? && producer.Some? ==>
            s.calls == [ExecutedByRetry(template.value, OpSendOneway(ons)), Called(OpSendOneway(ons))]
            && (s.result.Ok? <==> env.sendOneway(ons) == Done)
            && (env.sendOneway(ons).Thrown? ==> s.result == Err(Messaging(env.sendOneway(ons).error))))
    ensures !Rejected(message) && OnsMessageOf(destination, message.value, cfg).Ok? && template.None? ==>
      var ons := OnsMessageOf(destination, message.value, cfg).value;
      (producer.None? ==> s == Sent([], Err(Messaging(NullPointer))))
      && (producer.Some? && env.send(ons).Err? ==> s == Sent([Called(OpSend(ons))], Err(Messaging(env.send(ons).error))))
      && (producer.Some? && env.send(ons).Ok? ==>
            s.calls == [Called(OpSend(ons)), Called(OpSendOneway(ons))]
            && (s.result.Ok? <==> env.sendOneway(ons) == Done)
            && (env.sendOneway(ons).Thrown? ==> s.result == Err(Messaging(env.sendOneway(ons).error))))
  {
    if Rejected(message) then Sent([], Err(IllegalArgument(NullMessage)))
    else
      match OnsMessageOf(destination, message.value, cfg)
      case Err(e) => Sent([], Err(Messaging(e)))
      case Ok(ons) =>
        var first: Sent<()> :=
          match template
          case Some(t) =>
            Sent([ExecutedByRetry(t, OpSendOneway(ons))],
                 match env.execute(t, OpSendOneway(ons))
                 case Err(e) => Err(Messaging(e))
                 case Ok(_) => Ok(()))
          case None =>
            if producer.None? then Sent([], Err(Messaging(NullPointer)))
            else
              Sent([Called(OpSend(ons))],
                   match env.send(ons)
                   case Err(e) => Err(Messaging(e))
                   case Ok(_) => Ok(()));
        if first.result.Err? then first
        else if producer.None? then Sent(first.calls, Err(Messaging(NullPointer)))
        else
          Sent(first.calls + [Called(OpSendOneway(ons))],
               match env.sendOneway(ons)
               case Thrown(e) => Err(Messaging(e))
               case Done => Ok(()))
  }

  /** The payload overloads: `doConvert` first (its failure propagates
      unwrapped, before any call), then the `Message` path. */
  function ConvertForSend(payload: Option<Payload>, key: Option<string>, cfg: ConverterConfig): Result<SpringMessage, Throwable>
  {
    DoConvert(payload, KeyHeaders(key), cfg.json)
  }

  // ---------------------------------------------------------------- properties

  /** A message built by the payload overloads is never rejected as null. */
  lemma OverloadsPassNullCheck(payload: Option<Payload>, key: Option<string>, cfg: ConverterConfig)
    requires ConvertForSend(payload, key, cfg).Ok?
    ensures !Rejected(Some(ConvertForSend(payload, key, cfg).value))
  {
  }

  /** Through the payload overloads, the broker message key is the given key
      when it has text and absent otherwise, and of the headers the overloads
      pass in (`KEYS` and `contentType`) only `USERS_contentType` =
      `application/json` becomes a user property. The `id` and `timestamp`
      headers that `MessageBuilder` adds are not part of the model. */
  lemma OverloadKeyAndProperties(destination: string, payload: Option<Payload>, key: Option<string>, cfg: ConverterConfig)
    requires ConvertForSend(payload, key, cfg).Ok?
    ensures OnsMessageOf(destination, ConvertForSend(payload, key, cfg).value, cfg).Ok?
    ensures var ons := OnsMessageOf(destination, ConvertForSend(payload, key, cfg).value, cfg).value;
      ons.key == (if HasText(key) then key else None)
      && ons.userProperties == map[PropertyName(ContentType) := ApplicationJson]
  {
    var m := ConvertForSend(payload, key, cfg).value;
    var headers := m.headers;
    assert ContentType in headers;
    assert |headers| > 0;
    if HasText(key) {
      assert headers[Keys] == TextValue(key.value);
      var i :| 0 <= i < |key.value| && !IsWhitespace(key.value[i]);
      assert key.value != "";
    }
    var expected := map[PropertyName(ContentType) := ApplicationJson];
    forall p | p in UserProperties(headers) ensures p in expected && UserProperties(headers)[p] == expected[p] {
      UserPropertiesExact(headers, p);
      var name := p[|UsersPrefix|..];
      assert p == PropertyName(name);
    }
    forall p | p in expected ensures p in UserProperties(headers) {
      UserPropertiesExact(headers, p);
    }
  }

  /** Without a retry template and with a working producer, `sendOneWay`
      delivers the message twice: a blocking `send`, then a `sendOneway`. */
  lemma OneWaySendsTwice(producer: ProducerRef, cfg: ConverterConfig, env: ProducerEnv, destination: string, message: SpringMessage)
    requires message.payload.Some?
    requires OnsMessageOf(destination, message, cfg).Ok?
    requires env.send(OnsMessageOf(destination, message, cfg).value).Ok?
    requires env.sendOneway(OnsMessageOf(destination, message, cfg).value) == Done
    ensures var ons := OnsMessageOf(destination, message, cfg).value;
      SendOneWaySpec(Some(producer), None, cfg, env, destination, Some(message)) == Sent([Called(OpSend(ons)), Called(OpSendOneway(ons))], Ok(()))
  {
  }

  class MqTemplate {
    var producer: Option<ProducerRef>
    const messageConverter: ConverterConfig
    var producerRetryTemplate: Option<RetryTemplate>
    ghost var calls: seq<ProducerCall>

    constructor (producer: Option<ProducerRef>, messageConverter: ConverterConfig)
      ensures this.producer == producer && this.messageConverter == messageConverter
      ensures producerRetryTemplate.None? && calls == []
    {
      this.producer := producer;
      this.messageConverter := messageConverter;
      producerRetryTemplate := None;
      calls := [];
    }

    /** `syncSend(destination, message)`. */
    method SyncSend(destination: string, message: Option<SpringMessage>, env: ProducerEnv) returns (r: Result<SendResult, Throwable>)
      modifies this`calls
      ensures var s := SyncSendSpec(producer, producerRetryTemplate, messageConverter, env, destination, message);
        r == s.result && calls == old(calls) + s.calls
    {
      if message.None? || message.value.payload.None? {
        return Err(IllegalArgument(NullMessage));
      }
      var converted := ToMessage(destination, message.value, messageConverter);
      if converted.Err? {
        return Err(Messaging(converted.error));
      }
      var onsMsg := converted.value;
      if producerRetryTemplate.Some? {
        calls := calls + [ExecutedByRetry(producerRetryTemplate.value, OpSend(onsMsg))];
        var executed := env.execute(producerRetryTemplate.value, OpSend(onsMsg));
        if executed.Err? {
          return Err(Messaging(executed.error));
        }
        if executed.value.None? {
          return Err(Messaging(NullPointer));
        }
        r := Ok(executed.value.value);
      } else {
        if producer.None? {
          return Err(Messaging(NullPointer));
        }
        calls := calls + [Called(OpSend(onsMsg))];
        var sent := env.send(onsMsg);
        if sent.Err? {
          return Err(Messaging(sent.error));
        }
        r := Ok(sent.value);
      }
    }

    /** `syncSend(destination, key, payload)`; `syncSend(destination, payload)` is `key == None`. */
    method SyncSendPayload(destination: string, key: Option<string>, payload: Option<Payload>, env: ProducerEnv)
      returns (r: Result<SendResult, Throwable>)
      modifies this`calls
      ensures ConvertForSend(payload, key, messageConverter).Err? ==>
        r == Err(ConvertForSend(payload, key, messageConverter).error) && calls == old(calls)
      ensures ConvertForSend(payload, key, messageConverter).Ok? ==>
        var s := SyncSendSpec(producer, producerRetryTemplate, messageConverter, env, destination,
                              Some(ConvertForSend(payload, key, messageConverter).value));
        r == s.result && calls == old(calls) + s.calls
    {
      var headers := KeyHeaders(key);
      var message := DoConvert(payload, headers, messageConverter.json);
      if message.Err? {
        return Err(message.error);
      }
      r := SyncSend(destination, Some(message.value), env);
    }

    /** `asyncSend(destination, message, callback)`. */
    method AsyncSend(destination: string, message: Option<SpringMessage>, callback: SendCallback, env: ProducerEnv)
      returns (r: Result<(), Throwable>)
      modifies this`calls
      ensures var s := AsyncSendSpec(producer, producerRetryTemplate, messageConverter, env, destination, message, callback);
        r == s.result && calls == old(calls) + s.calls
    {
      if message.None? || message.value.payload.None? {
        return Err(IllegalArgument(NullMessage));
      }
      var converted := ToMessage(destination, message.value, messageConverter);
      if converted.Err? {
        return Err(Messaging(converted.error));
      }
      var onsMsg := converted.value;
      if producerRetryTemplate.Some? {
        calls := calls + [ExecutedByRetry(producerRetryTemplate.value, OpSendAsync(onsMsg, callback))];
        var executed := env.execute(producerRetryTemplate.value, OpSendAsync(onsMsg, callback));
        if executed.Err? {
          return Err(Messaging(executed.error));
        }
      } else {
        if producer.None? {
          return Err(Messaging(NullPointer));
        }
        calls := calls + [Called(OpSend(onsMsg))];
        var sent := env.send(onsMsg);
        if sent.Err? {
          return Err(Messaging(sent.error));
        }
      }
      r := Ok(());
    }

    /** `asyncSend(destination, key, payload, callback)`; the overload without a key is `key == None`. */
    method AsyncSendPayload(destination: string, key: Option<string>, payload: Option<Payload>, callback: SendCallback,
                            env: ProducerEnv) returns (r: Result<(), Throwable>)
      modifies this`calls
      ensures ConvertForSend(payload, key, messageConverter).Err? ==>
        r == Err(ConvertForSend(payload, key, messageConverter).error) && calls == old(calls)
      ensures ConvertForSend(payload, key, messageConverter).Ok? ==>
        var s := AsyncSendSpec(producer, producerRetryTemplate, messageConverter, env, destination,
                               Some(ConvertForSend(payload, key, messageConverter).value), callback);
        r == s.result && calls == old(calls) + s.calls
    {
      var headers := KeyHeaders(key);
      var message := DoConvert(payload, headers, messageConverter.json);
      if message.Err? {
        return Err(message.error);
      }
      r := AsyncSend(destination, Some(message.value), callback, env);
    }

    /** `sendOneWay(destination, message)`. */
    method SendOneWay(destination: string, message: Option<SpringMessage>, env: ProducerEnv) returns (r: Result<(), Throwable>)
      modifies this`calls
      ensures var s := SendOneWaySpec(producer, producerRetryTemplate, messageConverter, env, destination, message);
        r == s.result && calls == old(calls) + s.calls
    {
      if message.None? || message.value.payload.None? {
        return Err(IllegalArgument(NullMessage));
      }
      var converted := ToMessage(destination, message.value, messageConverter);
      if converted.Err? {
        return Err(Messaging(converted.error));
      }
      var onsMsg := converted.value;
      if producerRetryTemplate.Some? {
        calls := calls + [ExecutedByRetry(producerRetryTemplate.value, OpSendOneway(onsMsg))];
        var executed := env.execute(producerRetryTemplate.value, OpSendOneway(onsMsg));
        if executed.Err? {
          return Err(Messaging(executed.error));
        }
      } else {
        if producer.None? {
          return Err(Messaging(NullPointer));
        }
        calls := calls + [Called(OpSend(onsMsg))];
        var sent := env.send(onsMsg);
        if sent.Err? {
          return Err(Messaging(sent.error));
        }
      }
      if producer.None? {
        return Err(Messaging(NullPointer));
      }
      calls := calls + [Called(OpSendOneway(onsMsg))];
      var oneway := env.sendOneway(onsMsg);
      if oneway.Thrown? {
        return Err(Messaging(oneway.error));
      }
      r := Ok(());
    }

    /** `sendOneWay(destination, key, payload)`; the overload without a key is `key == None`. */
    method SendOneWayPayload(destination: string, key: Option<string>, payload: Option<Payload>, env: ProducerEnv)
      returns (r: Result<(), Throwable>)
      modifies this`calls
      ensures ConvertForSend(payload, key, messageConverter).Err? ==>
        r == Err(ConvertForSend(payload, key, messageConverter).error) && calls == old(calls)
      ensures ConvertForSend(payload, key, messageConverter).Ok? ==>
        var s := SendOneWaySpec(producer, producerRetryTemplate, messageConverter, env, destination,
                                Some(ConvertForSend(payload, key, messageConverter).value));
        r == s.result && calls == old(calls) + s.calls
    {
      var headers := KeyHeaders(key);
      var message := DoConvert(payload, headers, messageConverter.json);
      if message.Err? {
        return Err(message.error);
      }
      r := SendOneWay(destination, Some(message.value), env);
    }

    /** `doSend(destination, message)`, the hook of Spring's sending template:
        `syncSend` with its result dropped. */
    method DoSend(destination: string, message: Option<SpringMessage>, env: ProducerEnv) returns (r: Completion)
      modifies this`calls
      ensures var s := SyncSendSpec(producer, producerRetryTemplate, messageConverter, env, destination, message);
        (r == Done <==> s.result.Ok?) && (r.Thrown? ==> r.error == s.result.error)
        && calls == old(calls) + s.calls
    {
      var sent := SyncSend(destination, message, env);
      r := if sent.Ok? then Done else Thrown(sent.error);
    }

    /** `afterPropertiesSet`: a producer is required, and is started. */
    method AfterPropertiesSet() returns (r: Completion)
      modifies this`calls
      ensures producer.None? ==> r == Thrown(IllegalArgument(ProducerRequired)) && calls == old(calls)
      ensures producer.Some? ==> r == Done && calls == old(calls) + [StartProducer]
    {
      if producer.None? {
        return Thrown(IllegalArgument(ProducerRequired));
      }
      calls := calls + [StartProducer];
      r := Done;
    }

    /** `destroy`: shut the producer down when there is one. */
    method Destroy()
      modifies this`calls
      ensures calls == old(calls) + (if producer.Some? then [ShutdownProducer] else [])
    {
      if producer.Some? {
        calls := calls + [ShutdownProducer];
      }
    }

    /** `buildRetryTemplate(retry)`: keep the installed template, else build
        one from `retry`, else build the default. */
    method BuildRetryTemplate(retry: Option<RetryConfig>)
      modifies this`producerRetryTemplate
      ensures producerRetryTemplate == SelectRetryTemplate(old(producerRetryTemplate), retry)
      ensures producerRetryTemplate.Some?
    {
      var rt := producerRetryTemplate;
      if rt.None? && retry.Some? {
        rt := Some(FromConfig(retry.value));
        producerRetryTemplate := rt;
      }
      if rt.None? && retry.None? {
        rt := Some(DefaultTemplate);
        producerRetryTemplate := rt;
      }
    }
  }
}
