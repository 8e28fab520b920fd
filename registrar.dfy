/** `MqListenerContainerRegistrar`: builds one `MqListenerContainer` per
    listener bean, names it from a shared counter, turns on local retry when
    the annotation asks for it and starts it. The bean factory is the map of
    registered containers; placeholder resolution and the injected beans
    come from a `SpringContext`. */
module Registrar {
  import opened Common
  import opened Properties
  import opened RetrySelection
  import opened Dispatch
  import opened Container

  /** `ClassUtils.getShortName(MqListenerContainer.class) + "_"`. */
  const ContainerPrefix := "MqListenerContainer_"

  /** The bean name of the `n`-th registered container. */
  function ContainerName(n: nat): (s: string)
    ensures |s| > |ContainerPrefix|
    ensures s[..|ContainerPrefix|] == ContainerPrefix && s[|ContainerPrefix|..] == NatToDecimal(n)
  {
    ContainerPrefix + NatToDecimal(n)
  }

  /** Different counter values give different bean names. */
  lemma ContainerNameInjective(a: nat, b: nat)
    requires ContainerName(a) == ContainerName(b)
    ensures a == b
  {
    assert NatToDecimal(a) == ContainerName(a)[|ContainerPrefix|..];
    assert NatToDecimal(b) == ContainerName(b)[|ContainerPrefix|..];
    DecimalInjective(a, b);
  }

  /** Names handed out while the counter ran up to `counter`. */
  ghost predicate NamesUpTo(containers: map<string, MqListenerContainer>, counter: nat)
  {
    forall name :: name in containers ==> exists k :: 1 <= k <= counter && name == ContainerName(k)
  }

  /** The next name is never one already registered. */
  lemma NextNameIsFree(containers: map<string, MqListenerContainer>, counter: nat)
    requires NamesUpTo(containers, counter)
    ensures ContainerName(counter + 1) !in containers
  {
    if ContainerName(counter + 1) in containers {
      var k :| 1 <= k <= counter && ContainerName(counter + 1) == ContainerName(k);
      ContainerNameInjective(counter + 1, k);
    }
  }

  /** What the application context supplies: the shared server properties, the
      optional `@MessageRetryTemplate` bean and error strategies, and
      `Environment.resolvePlaceholders`. */
  datatype SpringContext = SpringContext(
    server: ServerProperties,
    retryTemplateBean: Option<RetryTemplate>,
    strategies: Option<seq<StrategyRef>>,
    resolve: string -> string)

  /** A fresh `ConsumerProperties` filled from the annotation. `enableRetry`
      and `retry` are not copied and keep their defaults. */
  function ConsumerPropertiesFrom(a: MessageListenerAnnotation, resolve: string -> string): (cp: ConsumerProperties)
    ensures cp.consumeMode == a.consumeMode && cp.selectorType == a.selectorType
    ensures cp.topic == Some(resolve(a.topic)) && cp.consumerGroup == Some(resolve(a.consumerGroup))
    ensures cp.selectorExpress == resolve(a.selectorExpress)
    ensures cp.consumeThreadNum == Some(a.consumeThreadNum) && cp.messageModel == Some(a.messageModel)
    ensures cp.consumeFailedNum == Some(a.consumeFailedNum)
    ensures cp.enableRetry == ConsumerPropertiesDefaults.enableRetry && cp.retry == ConsumerPropertiesDefaults.retry
  {
    ConsumerPropertiesDefaults.(
      consumeMode := a.consumeMode,
      topic := Some(resolve(a.topic)),
      consumerGroup := Some(resolve(a.consumerGroup)),
      consumeThreadNum := Some(a.consumeThreadNum),
      messageModel := Some(a.messageModel),
      selectorExpress := resolve(a.selectorExpress),
      selectorType := a.selectorType,
      consumeFailedNum := Some(a.consumeFailedNum))
  }

  /** A fresh `ConsumerProperties.Retry` with all four fields set from `@ConsumerRetry`. */
  function RetryConfigFrom(r: ConsumerRetryAnnotation): (c: RetryConfig)
    ensures c.maxAttempts == r.maxAttempts && c.backOffMultiplier == r.backOffMultiplier
    ensures c.backOffInitialInterval == r.backOffInitialInterval && c.backOffMaxInterval == r.backOffMaxInterval
  {
    ConsumerRetryDefaults.(
      maxAttempts := r.maxAttempts,
      backOffInitialInterval := r.backOffInitialInterval,
      backOffMaxInterval := r.backOffMaxInterval,
      backOffMultiplier := r.backOffMultiplier)
  }

  /** The properties the container ends up with: the same object receives the
      retry record after the container was built. */
  function RegisteredProperties(a: MessageListenerAnnotation, resolve: string -> string): ConsumerProperties
  {
    ConsumerPropertiesFrom(a, resolve).(retry := if a.enableRetry then Some(RetryConfigFrom(a.retry)) else None)
  }

  /** The container's template after registration. */
  function RegisteredRetryTemplate(a: MessageListenerAnnotation, bean: Option<RetryTemplate>): Option<RetryTemplate>
  {
    if a.enableRetry then SelectRetryTemplate(bean, Some(RetryConfigFrom(a.retry))) else bean
  }

  /** Since `enableRetry` of the properties is never set, a registered
      container uses local retry exactly when the annotation enables it or a
      template bean was injected; an enabled annotation without a bean gets a
      template built from `@ConsumerRetry`. */
  lemma RegisteredRetryPath(a: MessageListenerAnnotation, resolve: string -> string, bean: Option<RetryTemplate>)
    ensures (RegisteredRetryTemplate(a, bean).None? && !RegisteredProperties(a, resolve).enableRetry)
            <==> (!a.enableRetry && bean.None?)
    ensures a.enableRetry && bean.None? ==> RegisteredRetryTemplate(a, bean) == Some(FromConfig(RetryConfigFrom(a.retry)))
  {
    assert ConsumerPropertiesDefaults.enableRetry == false;
  }

  /** Registered properties always name a group and a topic, so `start` can
      only fail its required-property checks on missing credentials. */
  lemma RegisteredPropertiesNeedOnlyCredentials(a: MessageListenerAnnotation, resolve: string -> string, sp: ServerProperties)
    ensures RequiredPropertyCheck(RegisteredProperties(a, resolve), sp).None? <==> sp.accessKey.Some? && sp.secretKey.Some?
  {
  }

  /** A bean annotated with only a group and a topic is consumed
      concurrently with tag selector `*`, one thread, clustering, escalation
      from the twelfth redelivery, and without local retry unless a template
      bean exists. */
  lemma DefaultAnnotationRegistration(group: string, topic: string, resolve: string -> string, bean: Option<RetryTemplate>)
    ensures var cp := RegisteredProperties(AnnotationDefaults(group, topic), resolve);
      cp.consumeMode == CONCURRENTLY && cp.selectorType == TAG && cp.selectorExpress == resolve("*")
      && cp.consumeThreadNum == Some(1) && cp.messageModel == Some(CLUSTERING)
      && cp.consumeFailedNum == Some(12) && cp.retry.None? && !cp.enableRetry
    ensures RegisteredRetryTemplate(AnnotationDefaults(group, topic), bean) == bean
  {
  }

  /** How `startContainerIfNecessary` ends for a container that is not yet
      started: the first missing required property, else a failed lookup of
      the message type, rethrown wrapped in a `RuntimeException`; otherwise
      the container starts. */
  function StartOutcome(cp: ConsumerProperties, sp: ServerProperties, listener: Option<ListenerRef>,
                        current: Option<TypeRef>): (r: Completion)
    ensures r == Done <==> RequiredPresent(cp, sp) && ResolvedMessageType(listener, current).Ok?
    ensures RequiredPropertyCheck(cp, sp).Some? ==> r == Thrown(Runtime(RequiredPropertyCheck(cp, sp).value))
    ensures RequiredPresent(cp, sp) && ResolvedMessageType(listener, current).Err? ==> r == Thrown(Runtime(ClassCast))
  {
    match RequiredPropertyCheck(cp, sp)
    case Some(e) => Thrown(Runtime(e))
    case None =>
      match ResolvedMessageType(listener, current)
      case Err(e) => Thrown(Runtime(e))
      case Ok(_) => Done
  }

  /** A container registered from a handler method has no `MqListener` to
      look a type up from, so it starts exactly when both credentials are
      configured. */
  lemma AnnotationStartNeedsOnlyCredentials(a: MessageListenerAnnotation, resolve: string -> string,
                                            sp: ServerProperties, t: TypeRef)
    ensures StartOutcome(RegisteredProperties(a, resolve), sp, None, Some(t)) == Done
            <==> sp.accessKey.Some? && sp.secretKey.Some?
  {
    RegisteredPropertiesNeedOnlyCredentials(a, resolve, sp);
  }

  class ContainerRegistrar {
    /** The static `AtomicLong` counter. */
    var counter: nat
    /** The container beans registered so far, by bean name. */
    var containers: map<string, MqListenerContainer>

    ghost predicate Valid()
      reads this
    {
      NamesUpTo(containers, counter)
    }

    constructor ()
      ensures Valid() && counter == 0 && containers == map[]
    {
      counter := 0;
      containers := map[];
    }

    /** `startContainerIfNecessary`: start a container that is not started; a
        failure of `start` is rethrown wrapped in a `RuntimeException`. */
    method StartContainerIfNecessary(c: MqListenerContainer) returns (r: Completion)
      requires c.Valid()
      modifies c`started, c`messageType, c`consumer, c`orderConsumer, c`brokerCalls
      ensures c.Valid()
      ensures old(c.started) ==>
        r == Done && c.started && c.brokerCalls == old(c.brokerCalls) && c.messageType == old(c.messageType)
        && c.consumer == old(c.consumer) && c.orderConsumer == old(c.orderConsumer)
      ensures r == Done <==> c.started
      ensures r.Thrown? ==> r.error.Runtime? && (r.error.cause.IllegalArgument? || r.error.cause == ClassCast)
      ensures !old(c.started) && RequiredPropertyCheck(c.consumerProperties, c.serverProperties).Some? ==>
        r == Thrown(Runtime(RequiredPropertyCheck(c.consumerProperties, c.serverProperties).value))
        && c.messageType == old(c.messageType) && c.consumer == old(c.consumer) && c.orderConsumer == old(c.orderConsumer)
        && c.brokerCalls == old(c.brokerCalls)
      ensures !old(c.started) && RequiredPresent(c.consumerProperties, c.serverProperties) ==>
        c.ActiveSet()
        && (c.consumerProperties.consumeMode == ORDERLY ==> fresh(c.orderConsumer) && c.consumer == old(c.consumer))
        && (c.consumerProperties.consumeMode == CONCURRENTLY ==> fresh(c.consumer) && c.orderConsumer == old(c.orderConsumer))
        && match ResolvedMessageType(c.mqListener, old(c.messageType))
           case Err(e) =>
             r == Thrown(Runtime(e)) && c.messageType == old(c.messageType)
             && c.brokerCalls == old(c.brokerCalls) + c.InitCallsOf()
           case Ok(t) =>
             r == Done && c.messageType == t
             && c.brokerCalls == old(c.brokerCalls) + c.InitCallsOf() + StartCalls(c.consumer, c.orderConsumer)
      ensures !old(c.started) && RequiredPresent(c.consumerProperties, c.serverProperties) &&
              ResolvedMessageType(c.mqListener, old(c.messageType)).Ok? ==>
        r == Done
      ensures !old(c.started) && r == Done ==> ResolvedMessageType(c.mqListener, old(c.messageType)) == Ok(c.messageType)
      ensures c.mqListener.None? ==> c.messageType == old(c.messageType)
      ensures !old(c.started) ==> r == StartOutcome(c.consumerProperties, c.serverProperties, c.mqListener, old(c.messageType))
    {
      if !c.started {
        var outcome := c.Start();
        if outcome.Thrown? {
          return Thrown(Runtime(outcome.error));
        }
      }
      r := Done;
    }

    /** Take the next counter value, register a new container under its name
        and enable retry when the annotation asks for it; the container is not
        started yet. */
    method NewContainer(a: MessageListenerAnnotation, ctx: SpringContext, listener: Option<ListenerRef>,
                        messageType: Option<TypeRef>, handlerMethod: Option<MethodRef>, instance: Option<string>)
      returns (c: MqListenerContainer)
      requires Valid()
      modifies this
      ensures Valid()
      ensures counter == old(counter) + 1
      ensures ContainerName(counter) !in old(containers)
      ensures containers == old(containers)[ContainerName(counter) := c]
      ensures fresh(c) && c.Valid() && !c.started
      ensures c.consumerProperties == RegisteredProperties(a, ctx.resolve)
      ensures c.serverProperties == ctx.server && c.errorMessageHandlerStrategies == ctx.strategies
      ensures c.mqListener == listener && c.messageType == messageType
      ensures c.handlerMethod == handlerMethod && c.instance == instance
      ensures c.retryTemplate == RegisteredRetryTemplate(a, ctx.retryTemplateBean)
      ensures c.brokerCalls == [] && c.consumer == null && c.orderConsumer == null
      ensures DisableRetry(c.CurrentBinding()) <==> !a.enableRetry && ctx.retryTemplateBean.None?
      ensures c.CurrentBinding().consumeFailedNum == Some(a.consumeFailedNum)
    {
      RegisteredRetryPath(a, ctx.resolve, ctx.retryTemplateBean);
      NextNameIsFree(containers, counter);
      counter := counter + 1;
      var name := ContainerName(counter);
      var cp := ConsumerPropertiesFrom(a, ctx.resolve);
      c := new MqListenerContainer(ctx.server, ctx.retryTemplateBean, ctx.strategies, cp,
                                   listener, messageType, handlerMethod, instance);
      containers := containers[name := c];
      if a.enableRetry {
        var retry := RetryConfigFrom(a.retry);
        c.consumerProperties := c.consumerProperties.(retry := Some(retry));
        c.BuildRetryTemplate(c.consumerProperties.retry);
      }
    }

    /** The steps both registration routes share: register a new container,
        then start it. */
    method RegisterContainer(a: MessageListenerAnnotation, ctx: SpringContext, listener: Option<ListenerRef>,
                             messageType: Option<TypeRef>, handlerMethod: Option<MethodRef>, instance: Option<string>)
      returns (c: MqListenerContainer, r: Completion)
      requires Valid()
      modifies this
      ensures Valid()
      ensures counter == old(counter) + 1
      ensures ContainerName(counter) !in old(containers)
      ensures containers == old(containers)[ContainerName(counter) := c]
      ensures fresh(c) && c.Valid()
      ensures c.consumerProperties == RegisteredProperties(a, ctx.resolve)
      ensures c.serverProperties == ctx.server && c.errorMessageHandlerStrategies == ctx.strategies
      ensures c.mqListener == listener && c.handlerMethod == handlerMethod && c.instance == instance
      ensures c.retryTemplate == RegisteredRetryTemplate(a, ctx.retryTemplateBean)
      ensures r == Done <==> c.started
      ensures r == StartOutcome(c.consumerProperties, c.serverProperties, listener, messageType)
      ensures r == Done ==> ResolvedMessageType(listener, messageType) == Ok(c.messageType)
      ensures listener.None? || r.Thrown? ==> c.messageType == messageType
      ensures r.Thrown? ==> r.error.Runtime?
      ensures !RequiredPresent(c.consumerProperties, c.serverProperties) ==>
        c.brokerCalls == [] && c.consumer == null && c.orderConsumer == null
      ensures RequiredPresent(c.consumerProperties, c.serverProperties) ==>
        c.ActiveSet()
        && (ResolvedMessageType(listener, messageType).Err? ==> c.brokerCalls == c.InitCallsOf())
        && (ResolvedMessageType(listener, messageType).Ok? ==>
              c.brokerCalls == c.InitCallsOf() + StartCalls(c.consumer, c.orderConsumer))
      ensures DisableRetry(c.CurrentBinding()) <==> !a.enableRetry && ctx.retryTemplateBean.None?
      ensures c.CurrentBinding().consumeFailedNum == Some(a.consumeFailedNum)
    {
      c := NewContainer(a, ctx, listener, messageType, handlerMethod, instance);
      r := StartContainerIfNecessary(c);
    }

    /** `registryFromInterface`: the bean itself is the `MqListener`; no
        handler method, no instance, and the message type is left for `start`. */
    method RegistryFromInterface(a: MessageListenerAnnotation, ctx: SpringContext, listener: ListenerRef)
      returns (c: MqListenerContainer, r: Completion)
      requires Valid()
      modifies this
      ensures Valid() && counter == old(counter) + 1
      ensures containers == old(containers)[ContainerName(counter) := c] && ContainerName(counter) !in old(containers)
      ensures fresh(c) && c.Valid()
      ensures c.consumerProperties == RegisteredProperties(a, ctx.resolve)
      ensures c.mqListener == Some(listener) && c.handlerMethod.None? && c.instance.None?
      ensures c.retryTemplate == RegisteredRetryTemplate(a, ctx.retryTemplateBean)
      ensures r == Done <==> c.started
      ensures c.serverProperties == ctx.server
      ensures r == StartOutcome(RegisteredProperties(a, ctx.resolve), ctx.server, Some(listener), None)
      ensures r == Done ==> ResolvedMessageType(Some(listener), None) == Ok(c.messageType)
      ensures r.Thrown? ==> r.error.Runtime? && c.messageType.None?
      ensures !RequiredPresent(c.consumerProperties, c.serverProperties) ==> c.brokerCalls == []
      ensures RequiredPresent(c.consumerProperties, c.serverProperties) ==>
        c.ActiveSet()
        && (r.Thrown? ==> c.brokerCalls == c.InitCallsOf())
        && (r == Done ==> c.brokerCalls == c.InitCallsOf() + StartCalls(c.consumer, c.orderConsumer))
      ensures DisableRetry(c.CurrentBinding()) <==> !a.enableRetry && ctx.retryTemplateBean.None?
      ensures c.CurrentBinding().consumeFailedNum == Some(a.consumeFailedNum)
    {
      c, r := RegisterContainer(a, ctx, Some(listener), None, None, None);
    }

    /** `registryFromAnnotation`: the first handler method, its first parameter
        type as the message type, and the bean as the instance. An empty
        handler list or a method without parameters fails before the counter
        moves. */
    method RegistryFromAnnotation(a: MessageListenerAnnotation, ctx: SpringContext, bean: string, handlers: seq<MethodRef>)
      returns (c: MqListenerContainer?, r: Completion)
      requires Valid()
      modifies this
      ensures Valid()
      ensures (|handlers| == 0 || |handlers[0].parameterTypes| == 0) ==>
        r == Thrown(IndexOutOfBounds) && c == null && counter == old(counter) && containers == old(containers)
      ensures |handlers| > 0 && |handlers[0].parameterTypes| > 0 ==>
        c != null && fresh(c) && c.Valid() && counter == old(counter) + 1
        && containers == old(containers)[ContainerName(counter) := c] && ContainerName(counter) !in old(containers)
        && c.consumerProperties == RegisteredProperties(a, ctx.resolve)
        && c.mqListener.None? && c.handlerMethod == Some(handlers[0]) && c.instance == Some(bean)
        && c.messageType == Some(handlers[0].parameterTypes[0])
        && c.retryTemplate == RegisteredRetryTemplate(a, ctx.retryTemplateBean)
        && (r == Done <==> c.started) && (r.Thrown? ==> r.error.Runtime?)
        && c.serverProperties == ctx.server
        && r == StartOutcome(RegisteredProperties(a, ctx.resolve), ctx.server, None, Some(handlers[0].parameterTypes[0]))
        && (!RequiredPresent(c.consumerProperties, c.serverProperties) ==> c.brokerCalls == [])
        && (RequiredPresent(c.consumerProperties, c.serverProperties) ==>
              c.ActiveSet() && c.brokerCalls == c.InitCallsOf() + StartCalls(c.consumer, c.orderConsumer))
        && (DisableRetry(c.CurrentBinding()) <==> !a.enableRetry && ctx.retryTemplateBean.None?)
        && c.CurrentBinding().consumeFailedNum == Some(a.consumeFailedNum)
    {
      if |handlers| == 0 {
        return null, Thrown(IndexOutOfBounds);
      }
      var handlerMethod := handlers[0];
      if |handlerMethod.parameterTypes| == 0 {
        return null, Thrown(IndexOutOfBounds);
      }
      var messageType := Some(handlerMethod.parameterTypes[0]);
      var made;
      made, r := RegisterContainer(a, ctx, None, messageType, Some(handlerMethod), Some(bean));
      c := made;
    }
  }
}
