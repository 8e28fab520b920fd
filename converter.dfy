/** `ApplicationJsonMessageMarshallingConverter`: from a Spring message to a
    broker message (`toMessage`) and from a broker message to the handler's
    argument (`fromMessage`). The charset and Jackson are collaborators given
    as functions. */
module Converter {
  import opened Common

  /** A payload object that is not a `String`. */
  datatype JavaObject = JavaObject(id: nat)

  /** A non-null Spring payload. */
  datatype Payload = Text(s: string) | Object(obj: JavaObject)

  /** A header value: a `String`, or any other object with its `toString()`. */
  datatype HeaderValue = TextValue(s: string) | OtherValue(rendered: string)

  /** `String.valueOf(value)` / `value.toString()`. */
  function Render(v: HeaderValue): string
  {
    match v
    case TextValue(s) => s
    case OtherValue(r) => r
  }

  /** Spring's `StringUtils.isEmpty(Object)`: null or equal to the string "". */
  predicate IsEmptyValue(v: Option<HeaderValue>)
  {
    v.None? || v.value == TextValue("")
  }

  /** A Spring `Message<?>`: payload (null is `None`) and headers. */
  datatype SpringMessage = SpringMessage(payload: Option<Payload>, headers: map<string, HeaderValue>)

  /** An ONS broker message. `reconsumeTimes` is the broker's redelivery count. */
  datatype OnsMessage = OnsMessage(
    topic: string,
    tags: string,
    body: Bytes,
    key: Option<string>,
    userProperties: map<string, string>,
    reconsumeTimes: int)

  /** `Charset.forName(charset)` as a pair of conversions. */
  datatype Charset = Charset(name: string, encode: string -> Bytes, decode: Bytes -> string)

  /** Jackson's `ObjectMapper`: `writeValueAsString` (null is `None`) and `readValue`. */
  datatype Json = Json(
    write: Option<JavaObject> -> Result<string, Throwable>,
    read: (string, Option<TypeRef>) -> Result<JavaObject, Throwable>)

  datatype ConverterConfig = ConverterConfig(charset: Charset, json: Json)

  /** The value `fromMessage` hands to the handler. */
  datatype Arg = MessageArg(message: OnsMessage) | StringArg(s: string) | ObjectArg(obj: JavaObject)

  /** Header name `MessageConst.PROPERTY_KEYS`. */
  const Keys := "KEYS"
  const UsersPrefix := "USERS_"

  ghost predicate CharsetRoundTrips(c: Charset)
  {
    forall s :: c.decode(c.encode(s)) == s
  }

  // ---------------------------------------------------------------- fromMessage

  /** `fromMessage(message, targetClass)`; a null target class is `None`. */
  function FromMessage(m: OnsMessage, target: Option<TypeRef>, cfg: ConverterConfig): (r: Result<Arg, Throwable>)
    ensures target == Some(MessageClass) ==> r == Ok(MessageArg(m))
    ensures r.Ok? && r.value.MessageArg? ==> target == Some(MessageClass) && r.value.message == m
    ensures r.Ok? && r.value.StringArg? <==> target == Some(StringClass)
    ensures target == Some(StringClass) ==> r == Ok(StringArg(cfg.charset.decode(m.body)))
    ensures target != Some(MessageClass) && target != Some(StringClass) ==>
      var read := cfg.json.read(cfg.charset.decode(m.body), target);
      (r.Ok? <==> read.Ok?) && (r.Ok? ==> r.value == ObjectArg(read.value))
      && (r.Err? && IsException(read.error) ==> r.error == Runtime(read.error))
      && (r.Err? && !IsException(read.error) ==> r.error == read.error)
    ensures r.Err? ==> r.error.Runtime? || !IsException(r.error)
  {
    if target == Some(MessageClass) then Ok(MessageArg(m))
    else
      var str := cfg.charset.decode(m.body);
      if target == Some(StringClass) then Ok(StringArg(str))
      else
        match cfg.json.read(str, target)
        case Ok(o) => Ok(ObjectArg(o))
        case Err(e) => Err(CaughtAsRuntime(e))
  }

  // ---------------------------------------------------------------- toMessage

  /** Index of the first ':' in `s`, or `|s|` when there is none. */
  function IndexOfColon(s: string): (i: nat)
    ensures i <= |s|
    ensures i < |s| ==> s[i] == ':'
    ensures forall j :: 0 <= j < i ==> s[j] != ':'
  {
    if |s| == 0 then 0
    else if s[0] == ':' then 0
    else 1 + IndexOfColon(s[1..])
  }

  /** `destination.split(":", 2)`: topic before the first ':', tags after it
      (further colons stay in the tags), tags "" when there is no colon. */
  function SplitDestination(destination: string): (r: (string, string))
    ensures ':' !in r.0
    ensures ':' in destination ==> destination == r.0 + ":" + r.1
    ensures ':' !in destination ==> r == (destination, "")
  {
    var i := IndexOfColon(destination);
    if i < |destination| then
      assert destination == destination[..i] + ":" + destination[i + 1..];
      (destination[..i], destination[i + 1..])
    else (destination, "")
  }

  /** The text of a payload: a `String` as it is, any other payload (null
      included) written by Jackson; a failure is Jackson's own throwable,
      which each caller wraps in its own way. Both `toMessage` and the
      producer's `doConvert` (through `toString`) do this. */
  function PayloadText(payload: Option<Payload>, json: Json): (r: Result<string, Throwable>)
    ensures payload.Some? && payload.value.Text? ==> r == Ok(payload.value.s)
    ensures payload.Some? && payload.value.Object? ==> r == json.write(Some(payload.value.obj))
    ensures payload.None? ==> r == json.write(None)
  {
    match payload
    case Some(Text(s)) => Ok(s)
    case Some(Object(o)) => json.write(Some(o))
    case None => json.write(None)
  }

  /** The body bytes: the payload's text encoded with the charset. Jackson's
      exception is wrapped in a `RuntimeException`; an `Error` escapes as it is. */
  function EncodePayload(payload: Option<Payload>, cfg: ConverterConfig): (r: Result<Bytes, Throwable>)
    ensures r.Ok? <==> PayloadText(payload, cfg.json).Ok?
    ensures r.Ok? ==> r.value == cfg.charset.encode(PayloadText(payload, cfg.json).value)
    ensures r.Err? && IsException(PayloadText(payload, cfg.json).error) ==>
      r.error == Runtime(PayloadText(payload, cfg.json).error)
    ensures r.Err? && !IsException(PayloadText(payload, cfg.json).error) ==>
      r.error == PayloadText(payload, cfg.json).error
    ensures payload.Some? && payload.value.Text? ==> r == Ok(cfg.charset.encode(payload.value.s))
    ensures r.Err? ==> r.error.Runtime? || !IsException(r.error)
  {
    match PayloadText(payload, cfg.json)
    case Ok(text) => Ok(cfg.charset.encode(text))
    case Err(e) => Err(CaughtAsRuntime(e))
  }

  /** The message key taken from a non-empty header map. */
  function MessageKey(headers: map<string, HeaderValue>): (k: Option<string>)
    ensures k.Some? <==> Keys in headers && headers[Keys] != TextValue("")
    ensures k.Some? ==> k.value == Render(headers[Keys])
  {
    var keys := if Keys in headers then Some(headers[Keys]) else None;
    if !IsEmptyValue(keys) then Some(Render(keys.value)) else None
  }

  /** The user-property name of a header: `"USERS_" + name`. */
  function PropertyName(name: string): (p: string)
    ensures |p| == |UsersPrefix| + |name|
    ensures p[..|UsersPrefix|] == UsersPrefix && p[|UsersPrefix|..] == name
  {
    UsersPrefix + name
  }

  /** The user properties contributed by the headers named in `names`. */
  function UserPropertiesOver(headers: map<string, HeaderValue>, names: set<string>): map<string, string>
  {
    map name | name in names && name in headers && name != Keys :: PropertyName(name) := Render(headers[name])
  }

  /** Every header except `KEYS`, as property `"USERS_" + name` with its rendered value. */
  function UserProperties(headers: map<string, HeaderValue>): map<string, string>
  {
    UserPropertiesOver(headers, headers.Keys)
  }

  /** The broker message `toMessage(destination, message)` returns. */
  function OnsMessageOf(destination: string, message: SpringMessage, cfg: ConverterConfig): (r: Result<OnsMessage, Throwable>)
    ensures r.Ok? <==> EncodePayload(message.payload, cfg).Ok?
    ensures r.Ok? ==> r.value.body == EncodePayload(message.payload, cfg).value
    ensures r.Err? ==> r.error == EncodePayload(message.payload, cfg).error
    ensures r.Ok? ==> (r.value.topic, r.value.tags) == SplitDestination(destination)
    ensures r.Ok? ==> r.value.key == MessageKey(message.headers)
    ensures r.Ok? ==> r.value.userProperties == UserProperties(message.headers)
    ensures r.Ok? ==> r.value.reconsumeTimes == 0
  {
    match EncodePayload(message.payload, cfg)
    case Err(e) => Err(e)
    case Ok(body) =>
      var (topic, tags) := SplitDestination(destination);
      var headers := message.headers;
      if |headers| > 0 then Ok(OnsMessage(topic, tags, body, MessageKey(headers), UserProperties(headers), 0))
      else Ok(OnsMessage(topic, tags, body, None, map[], 0))
  }

  lemma UserPropertiesStep(headers: map<string, HeaderValue>, done: set<string>, name: string)
    requires name in headers && name !in done
    ensures UserPropertiesOver(headers, done + {name}) ==
      if name == Keys then UserPropertiesOver(headers, done)
      else UserPropertiesOver(headers, done)[PropertyName(name) := Render(headers[name])]
  {
    var before, after := UserPropertiesOver(headers, done), UserPropertiesOver(headers, done + {name});
    forall p | p in after
      ensures p in before || (name != Keys && p == PropertyName(name))
    {
      var n :| n in done + {name} && n in headers && n != Keys && p == PropertyName(n);
    }
  }

  /** The payload branch of `toMessage`: a `String` is encoded as it is, any
      other payload is written by Jackson first. */
  method EncodeBody(payload: Option<Payload>, cfg: ConverterConfig) returns (r: Result<Bytes, Throwable>)
    ensures r == EncodePayload(payload, cfg)
  {
    match payload {
      case Some(Text(s)) =>
        r := Ok(cfg.charset.encode(s));
      case Some(Object(o)) =>
        var json := cfg.json.write(Some(o));
        if json.Err? {
          return Err(CaughtAsRuntime(json.error));
        }
        r := Ok(cfg.charset.encode(json.value));
      case None =>
        var json := cfg.json.write(None);
        if json.Err? {
          return Err(CaughtAsRuntime(json.error));
        }
        r := Ok(cfg.charset.encode(json.value));
    }
  }

  /** The header loop of `toMessage`: every header except `KEYS`, one entry
      at a time, as a user property. */
  method CopyUserProperties(headers: map<string, HeaderValue>) returns (userProperties: map<string, string>)
    ensures userProperties == UserProperties(headers)
  {
    userProperties := map[];
    var pending := headers.Keys;
    while pending != {}
      invariant pending <= headers.Keys
      invariant userProperties == UserPropertiesOver(headers, headers.Keys - pending)
      decreases pending
    {
      var name :| name in pending;
      UserPropertiesStep(headers, headers.Keys - pending, name);
      assert headers.Keys - (pending - {name}) == (headers.Keys - pending) + {name};
      if name != Keys {
        userProperties := userProperties[PropertyName(name) := Render(headers[name])];
      }
      pending := pending - {name};
    }
    assert headers.Keys - pending == headers.Keys;
  }

  /** `toMessage`: encode the payload, split the destination, then set the key
      and copy the headers into the user properties. */
  method ToMessage(destination: string, message: SpringMessage, cfg: ConverterConfig) returns (r: Result<OnsMessage, Throwable>)
    ensures r == OnsMessageOf(destination, message, cfg)
  {
    var payloads := EncodeBody(message.payload, cfg);
    if payloads.Err? {
      return Err(payloads.error);
    }
    var (topic, tags) := SplitDestination(destination);
    var onsMsg := OnsMessage(topic, tags, payloads.value, None, map[], 0);
    var headers := message.headers;
    if |headers| > 0 {
      var keys := if Keys in headers then Some(headers[Keys]) else None;
      if !IsEmptyValue(keys) {
        onsMsg := onsMsg.(key := Some(Render(keys.value)));
      }
      var userProperties := CopyUserProperties(headers);
      onsMsg := onsMsg.(userProperties := userProperties);
    }
    r := Ok(onsMsg);
  }

  // ---------------------------------------------------------------- properties

  /** A property name is present exactly when it is `"USERS_"` followed by the
      name of a header other than `KEYS`, and it carries that header's value. */
  lemma UserPropertiesExact(headers: map<string, HeaderValue>, p: string)
    ensures p in UserProperties(headers) <==>
      |UsersPrefix| <= |p| && p[..|UsersPrefix|] == UsersPrefix
      && p[|UsersPrefix|..] in headers && p[|UsersPrefix|..] != Keys
    ensures p in UserProperties(headers) ==> UserProperties(headers)[p] == Render(headers[p[|UsersPrefix|..]])
  {
    if |UsersPrefix| <= |p| && p[..|UsersPrefix|] == UsersPrefix {
      assert p == PropertyName(p[|UsersPrefix|..]);
    }
  }

  /** Every header other than `KEYS` becomes a user property; `KEYS` itself never does. */
  lemma HeadersBecomeUserProperties(headers: map<string, HeaderValue>)
    ensures forall name :: name in headers && name != Keys ==>
      PropertyName(name) in UserProperties(headers) && UserProperties(headers)[PropertyName(name)] == Render(headers[name])
    ensures PropertyName(Keys) !in UserProperties(headers)
  {
    UserPropertiesExact(headers, PropertyName(Keys));
  }

  /** A `String` payload sent through `toMessage` comes back unchanged from
      `fromMessage` with target `String` under the same charset. */
  lemma StringPayloadRoundTrip(destination: string, s: string, headers: map<string, HeaderValue>, cfg: ConverterConfig)
    requires CharsetRoundTrips(cfg.charset)
    ensures OnsMessageOf(destination, SpringMessage(Some(Text(s)), headers), cfg).Ok?
    ensures FromMessage(OnsMessageOf(destination, SpringMessage(Some(Text(s)), headers), cfg).value,
                        Some(StringClass), cfg) == Ok(StringArg(s))
  {
    assert cfg.charset.decode(cfg.charset.encode(s)) == s;
  }
}
