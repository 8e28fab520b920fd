/** `MqListenerContainer`: one consumer per listener bean. `start` validates the
    required properties, creates and subscribes the broker consumer the
    consume mode asks for, resolves the message type of an `MqListener` and
    starts the consumers; `stop` shuts down whatever handles exist. The
    broker client is recorded in a ghost log of calls. */
module Container {
  import opened Common
  import opened Properties
  import opened RetrySelection
  import opened ClassUtils
  import opened Dispatch

  /** A broker `Consumer` made by `ONSFactory.createConsumer`. */
  class OnsConsumer {
    constructor () {}
  }

  /** A broker `OrderConsumer` made by `ONSFactory.createOrderedConsumer`. */
  class OnsOrderConsumer {
    constructor () {}
  }

  datatype Subscriber = Concurrent(consumer: OnsConsumer) | Ordered(orderConsumer: OnsOrderConsumer)

  /** The subscription expression: a tag expression, or `MessageSelector.bySql`. */
  datatype Selector = TagExpression(expression: string) | SqlExpression(expression: string)

  /** The `Properties` handed to `ONSFactory`. */
  datatype ClientConfig = ClientConfig(
    accessKey: string,
    secretKey: string,
    consumerId: string,
    consumeThreadNums: Option<int>,
    nameServer: Option<string>,
    messageModel: Option<string>)

  datatype BrokerCall =
    | Created(handle: Subscriber, config: ClientConfig)
    | Subscribed(handle: Subscriber, topic: string, selector: Selector)
    | StartedCall(handle: Subscriber)
    | ShutDown(handle: Subscriber)

  predicate RequiredPresent(cp: ConsumerProperties, sp: ServerProperties)
  {
    cp.consumerGroup.Some? && sp.accessKey.Some? && sp.secretKey.Some? && cp.topic.Some?
  }

  /** The four `Assert.notNull` checks of `initMQConsumer`, in source order:
      the first missing property is reported. */
  function RequiredPropertyCheck(cp: ConsumerProperties, sp: ServerProperties): (r: Option<Throwable>)
    ensures r.None? <==> RequiredPresent(cp, sp)
    ensures cp.consumerGroup.None? ==> r == Some(IllegalArgument("Property 'consumerGroup' is required"))
    ensures cp.consumerGroup.Some? && sp.accessKey.None? ==> r == Some(IllegalArgument("Property 'accessKey' is required"))
    ensures cp.consumerGroup.Some? && sp.accessKey.Some? && sp.secretKey.None? ==>
      r == Some(IllegalArgument("Property 'secretKey' is required"))
    ensures cp.consumerGroup.Some? && sp.accessKey.Some? && sp.secretKey.Some? && cp.topic.None? ==>
      r == Some(IllegalArgument("Property 'topic' is required"))
  {
    if cp.consumerGroup.None? then Some(IllegalArgument("Property 'consumerGroup' is required"))
    else if sp.accessKey.None? then Some(IllegalArgument("Property 'accessKey' is required"))
    else if sp.secretKey.None? then Some(IllegalArgument("Property 'secretKey' is required"))
    else if cp.topic.None? then Some(IllegalArgument("Property 'topic' is required"))
    else None
  }

  /** The client properties: credentials and consumer id always, the thread
      count when set, the name server only when it has text, the message model
      by its broker name when set. */
  function ClientConfigOf(cp: ConsumerProperties, sp: ServerProperties): (c: ClientConfig)
    requires RequiredPresent(cp, sp)
    ensures c.accessKey == sp.accessKey.value && c.secretKey == sp.secretKey.value
    ensures c.consumerId == cp.consumerGroup.value
    ensures c.consumeThreadNums == cp.consumeThreadNum
    ensures c.nameServer.Some? <==> HasText(sp.nameServer)
    ensures c.nameServer.Some? ==> c.nameServer == sp.nameServer
    ensures c.messageModel.Some? <==> cp.messageModel.Some?
    ensures cp.messageModel.Some? ==> c.messageModel == Some(ModeName(cp.messageModel.value))
  {
    ClientConfig(
      sp.accessKey.value, sp.secretKey.value, cp.consumerGroup.value, cp.consumeThreadNum,
      if HasText(sp.nameServer) then sp.nameServer else None,
      match cp.messageModel
      case None => None
      case Some(m) => Some(ModeName(m)))
  }

  function SelectorOf(cp: ConsumerProperties): Selector
  {
    match cp.selectorType
    case TAG => TagExpression(cp.selectorExpress)
    case SQL92 => SqlExpression(cp.selectorExpress)
  }

  /** Create the handle, then subscribe it to the topic. */
  function InitCalls(h: Subscriber, cp: ConsumerProperties, sp: ServerProperties): seq<BrokerCall>
    requires RequiredPresent(cp, sp)
  {
    [Created(h, ClientConfigOf(cp, sp)), Subscribed(h, cp.topic.value, SelectorOf(cp))]
  }

  /** `start` on each handle that is set, concurrent first. */
  function StartCalls(consumer: OnsConsumer?, orderConsumer: OnsOrderConsumer?): seq<BrokerCall>
  {
    (if consumer != null then [StartedCall(Concurrent(consumer))] else [])
    + (if orderConsumer != null then [StartedCall(Ordered(orderConsumer))] else [])
  }

  /** `shutdown` on each handle that is set, concurrent first. */
  function ShutdownCalls(consumer: OnsConsumer?, orderConsumer: OnsOrderConsumer?): seq<BrokerCall>
  {
    (if consumer != null then [ShutDown(Concurrent(consumer))] else [])
    + (if orderConsumer != null then [ShutDown(Ordered(orderConsumer))] else [])
  }

  /** The message type after `start`: read from an `MqListener`'s generic
      interfaces when one is bound, else the type already set. */
  function ResolvedMessageType(listener: Option<ListenerRef>, current: Option<TypeRef>): (r: Result<Option<TypeRef>, Throwable>)
    ensures listener.None? ==> r == Ok(current)
    ensures r.Err? ==> r.error == ClassCast
    ensures listener.Some? && r.Ok? ==> r.value.Some?
    ensures listener.Some? ==>
      var found := GetMethodParameterType(listener.value.genericInterfaces);
      (r.Ok? <==> found.Ok?) && (r.Ok? ==> r.value == Some(found.value))
  {
    match listener
    case None => Ok(current)
    case Some(l) =>
      match GetMethodParameterType(l.genericInterfaces)
      case Ok(t) => Ok(Some(t))
      case Err(e) => Err(e)
  }

  class MqListenerContainer {
    const serverProperties: ServerProperties
    /** The optional `ErrorMessageHandlerStrategy` beans, in injection order. */
    const errorMessageHandlerStrategies: Option<seq<StrategyRef>>
    var consumerProperties: ConsumerProperties
    var mqListener: Option<ListenerRef>
    var messageType: Option<TypeRef>
    var handlerMethod: Option<MethodRef>
    var instance: Option<string>
    var started: bool
    var consumer: OnsConsumer?
    var orderConsumer: OnsOrderConsumer?
    var retryTemplate: Option<RetryTemplate>
    ghost var brokerCalls: seq<BrokerCall>

    /** The handle the consume mode asks for is set. */
    predicate ActiveSet()
      reads this
    {
      match consumerProperties.consumeMode
      case ORDERLY => orderConsumer != null
      case CONCURRENTLY => consumer != null
    }

    /** A started container has started the handle its consume mode asks for. */
    ghost predicate Valid()
      reads this
    {
      started ==>
        match consumerProperties.consumeMode
        case ORDERLY => orderConsumer != null && StartedCall(Ordered(orderConsumer)) in brokerCalls
        case CONCURRENTLY => consumer != null && StartedCall(Concurrent(consumer)) in brokerCalls
    }

    /** The calls `initMQConsumer` made for the handle of the current mode. */
    ghost function InitCallsOf(): seq<BrokerCall>
      reads this
      requires RequiredPresent(consumerProperties, serverProperties)
    {
      match consumerProperties.consumeMode
      case ORDERLY => if orderConsumer == null then [] else InitCalls(Ordered(orderConsumer), consumerProperties, serverProperties)
      case CONCURRENTLY => if consumer == null then [] else InitCalls(Concurrent(consumer), consumerProperties, serverProperties)
    }

    /** The container as the bean factory hands it over: the property values
        the registrar supplied and the injected beans. */
    constructor (serverProperties: ServerProperties, retryTemplate: Option<RetryTemplate>,
                 strategies: Option<seq<StrategyRef>>, consumerProperties: ConsumerProperties,
                 mqListener: Option<ListenerRef>, messageType: Option<TypeRef>,
                 handlerMethod: Option<MethodRef>, instance: Option<string>)
      ensures Valid() && !started
      ensures this.serverProperties == serverProperties && this.retryTemplate == retryTemplate
      ensures errorMessageHandlerStrategies == strategies && this.consumerProperties == consumerProperties
      ensures this.mqListener == mqListener && this.messageType == messageType
      ensures this.handlerMethod == handlerMethod && this.instance == instance
      ensures consumer == null && orderConsumer == null && brokerCalls == []
    {
      this.serverProperties := serverProperties;
      this.errorMessageHandlerStrategies := strategies;
      this.consumerProperties := consumerProperties;
      this.mqListener := mqListener;
      this.messageType := messageType;
      this.handlerMethod := handlerMethod;
      this.instance := instance;
      this.retryTemplate := retryTemplate;
      started := false;
      consumer := null;
      orderConsumer := null;
      brokerCalls := [];
    }

    /** The fields the message path reads. */
    function CurrentBinding(): Binding
      reads this
    {
      Binding(messageType, mqListener, handlerMethod, instance, retryTemplate,
              consumerProperties.enableRetry, consumerProperties.consumeFailedNum,
              errorMessageHandlerStrategies)
    }

    /** `initMQConsumer`: the required-property checks, then exactly one handle,
        the one the consume mode asks for, is created and subscribed. */
    method InitMQConsumer() returns (r: Completion)
      modifies this`consumer, this`orderConsumer, this`brokerCalls
      ensures RequiredPropertyCheck(consumerProperties, serverProperties).Some? ==>
        r == Thrown(RequiredPropertyCheck(consumerProperties, serverProperties).value)
        && consumer == old(consumer) && orderConsumer == old(orderConsumer) && brokerCalls == old(brokerCalls)
      ensures RequiredPresent(consumerProperties, serverProperties) ==>
        r == Done && ActiveSet() && brokerCalls == old(brokerCalls) + InitCallsOf()
      ensures consumerProperties.consumeMode == ORDERLY ==> consumer == old(consumer)
      ensures consumerProperties.consumeMode == ORDERLY && r == Done ==> fresh(orderConsumer)
      ensures consumerProperties.consumeMode == CONCURRENTLY ==> orderConsumer == old(orderConsumer)
      ensures consumerProperties.consumeMode == CONCURRENTLY && r == Done ==> fresh(consumer)
    {
      var check := RequiredPropertyCheck(consumerProperties, serverProperties);
      if check.Some? {
        return Thrown(check.value);
      }
      var config := ClientConfigOf(consumerProperties, serverProperties);
      if consumerProperties.consumeMode == ORDERLY {
        var o := new OnsOrderConsumer();
        orderConsumer := o;
        brokerCalls := brokerCalls + [Created(Ordered(o), config)];
        brokerCalls := brokerCalls + [Subscribed(Ordered(o), consumerProperties.topic.value, SelectorOf(consumerProperties))];
      }
      if consumerProperties.consumeMode == CONCURRENTLY {
        var c := new OnsConsumer();
        consumer := c;
        brokerCalls := brokerCalls + [Created(Concurrent(c), config)];
        brokerCalls := brokerCalls + [Subscribed(Concurrent(c), consumerProperties.topic.value, SelectorOf(consumerProperties))];
      }
      r := Done;
    }

    /** `start`: nothing when already started; otherwise initialise, resolve
        the message type of a bound `MqListener`, start the handles that are
        set and mark the container started. A failure leaves it not started. */
    method Start() returns (r: Completion)
      requires Valid()
      modifies this`started, this`messageType, this`consumer, this`orderConsumer, this`brokerCalls
      ensures Valid()
      ensures old(started) ==>
        r == Done && started && messageType == old(messageType)
        && consumer == old(consumer) && orderConsumer == old(orderConsumer) && brokerCalls == old(brokerCalls)
      ensures !old(started) && RequiredPropertyCheck(consumerProperties, serverProperties).Some? ==>
        r == Thrown(RequiredPropertyCheck(consumerProperties, serverProperties).value) && !started
        && messageType == old(messageType) && consumer == old(consumer) && orderConsumer == old(orderConsumer)
        && brokerCalls == old(brokerCalls)
      ensures !old(started) && RequiredPresent(consumerProperties, serverProperties) ==>
        ActiveSet()
        && (consumerProperties.consumeMode == ORDERLY ==> fresh(orderConsumer) && consumer == old(consumer))
        && (consumerProperties.consumeMode == CONCURRENTLY ==> fresh(consumer) && orderConsumer == old(orderConsumer))
        && match ResolvedMessageType(mqListener, old(messageType))
           case Err(e) =>
             r == Thrown(e) && !started && messageType == old(messageType)
             && brokerCalls == old(brokerCalls) + InitCallsOf()
           case Ok(t) =>
             r == Done && started && messageType == t
             && brokerCalls == old(brokerCalls) + InitCallsOf() + StartCalls(consumer, orderConsumer)
    {
      if started {
        return Done;
      }
      r := InitMQConsumer();
      if r.Thrown? {
        return;
      }
      ghost var initialised := brokerCalls;
      if mqListener.Some? {
        var t := GetMethodParameterType(mqListener.value.genericInterfaces);
        if t.Err? {
          return Thrown(t.error);
        }
        messageType := Some(t.value);
      }
      if consumer != null {
        brokerCalls := brokerCalls + [StartedCall(Concurrent(consumer))];
      }
      if orderConsumer != null {
        brokerCalls := brokerCalls + [StartedCall(Ordered(orderConsumer))];
      }
      assert brokerCalls == initialised + StartCalls(consumer, orderConsumer);
      started := true;
    }

    /** `stop`: clear `started` and shut down each handle that is set. The
        handles are kept, so a second `stop` shuts them down again. */
    method Stop()
      modifies this`started, this`brokerCalls
      ensures Valid() && !started
      ensures brokerCalls == old(brokerCalls) + ShutdownCalls(consumer, orderConsumer)
      ensures consumer == null && orderConsumer == null ==> brokerCalls == old(brokerCalls)
    {
      started := false;
      if consumer != null {
        brokerCalls := brokerCalls + [ShutDown(Concurrent(consumer))];
      }
      if orderConsumer != null {
        brokerCalls := brokerCalls + [ShutDown(Ordered(orderConsumer))];
      }
    }

    /** `buildRetryTemplate(retry)`: keep the installed template, else build
        one from `retry`, else build the default. */
    method BuildRetryTemplate(retry: Option<RetryConfig>)
      modifies this`retryTemplate
      ensures retryTemplate == SelectRetryTemplate(old(retryTemplate), retry)
      ensures retryTemplate.Some?
    {
      var rt := retryTemplate;
      if rt.None? && retry.Some? {
        rt := Some(FromConfig(retry.value));
        retryTemplate := rt;
      }
      if rt.None? && retry.None? {
        rt := Some(DefaultTemplate);
        retryTemplate := rt;
      }
    }
  }
}
