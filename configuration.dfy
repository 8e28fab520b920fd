/** `ConsumerContainerConfiguration`: for every bean annotated with
    `@MessageListener`, collect its `@MessageListenerHandlerMethod` methods and
    route it to interface registration, annotation registration, or an error.
    Reflection is replaced by each bean's declared methods with their
    annotation flags. */
module Configuration {
  import opened Common
  import opened Properties
  import opened Dispatch
  import opened Container
  import opened ClassUtils
  import opened Registrar

  /** One entry of `ReflectionUtils.getUniqueDeclaredMethods`, with whether
      `@MessageListenerHandlerMethod` is found on it. */
  datatype DeclaredMethod = DeclaredMethod(declared: MethodRef, handlerAnnotated: bool)

  /** A bean found by `getBeansWithAnnotation(MessageListener.class)`: its name,
      its target class's name and annotation, its declared methods, whether
      the class implements `MqListener`, and the bean as an `MqListener`. */
  datatype ListenerBean = ListenerBean(
    name: string,
    className: string,
    annotation: MessageListenerAnnotation,
    declaredMethods: seq<DeclaredMethod>,
    implementsMqListener: bool,
    listener: ListenerRef)

  /** The annotated methods, in declaration order. */
  function HandlerMethods(ms: seq<DeclaredMethod>): (hs: seq<MethodRef>)
    ensures |hs| <= |ms|
    ensures forall h :: h in hs ==> exists i :: 0 <= i < |ms| && ms[i].handlerAnnotated && ms[i].declared == h
  {
    if |ms| == 0 then []
    else (if ms[0].handlerAnnotated then [ms[0].declared] else []) + HandlerMethods(ms[1..])
  }

  lemma {:induction false} HandlerMethodsAppend(a: seq<DeclaredMethod>, b: seq<DeclaredMethod>)
    ensures HandlerMethods(a + b) == HandlerMethods(a) + HandlerMethods(b)
  {
    if |a| > 0 {
      assert (a + b)[1..] == a[1..] + b;
      HandlerMethodsAppend(a[1..], b);
    } else {
      assert a + b == b;
    }
  }

  /** A method is a handler exactly when some annotated declared method is it. */
  lemma {:induction false} HandlerMethodsExact(ms: seq<DeclaredMethod>, m: MethodRef)
    ensures m in HandlerMethods(ms) <==> exists i :: 0 <= i < |ms| && ms[i].handlerAnnotated && ms[i].declared == m
  {
    if |ms| > 0 {
      HandlerMethodsExact(ms[1..], m);
      if m in HandlerMethods(ms[1..]) {
        var i :| 0 <= i < |ms[1..]| && ms[1..][i].handlerAnnotated && ms[1..][i].declared == m;
        assert ms[i + 1] == ms[1..][i];
      }
      if exists i :: 0 <= i < |ms| && ms[i].handlerAnnotated && ms[i].declared == m {
        var i :| 0 <= i < |ms| && ms[i].handlerAnnotated && ms[i].declared == m;
        if i > 0 {
          assert ms[1..][i - 1] == ms[i];
        }
      }
    }
  }

  /** The filter loop of `registerConsumerContainer`. */
  method CollectHandlerMethods(ms: seq<DeclaredMethod>) returns (hs: seq<MethodRef>)
    ensures hs == HandlerMethods(ms)
  {
    hs := [];
    for i := 0 to |ms|
      invariant hs == HandlerMethods(ms[..i])
    {
      HandlerMethodsAppend(ms[..i], [ms[i]]);
      assert ms[..i + 1] == ms[..i] + [ms[i]];
      if ms[i].handlerAnnotated {
        hs := hs + [ms[i].declared];
      }
    }
    assert ms[..|ms|] == ms;
  }

  datatype Route = ByInterface | ByAnnotation(handlers: seq<MethodRef>) | Rejected(found: nat)

  /** The branch `registerConsumerContainer` takes: no handler and an
      `MqListener` goes by interface; more than one handler is rejected;
      anything else goes by annotation. */
  function RouteOf(handlers: seq<MethodRef>, implementsMqListener: bool): (r: Route)
    ensures r == ByInterface <==> |handlers| == 0 && implementsMqListener
    ensures r.Rejected? <==> |handlers| > 1
    ensures r.Rejected? ==> r.found == |handlers|
    ensures r.ByAnnotation? ==> r.handlers == handlers && |handlers| <= 1
    ensures |handlers| == 1 ==> r == ByAnnotation(handlers)
  {
    if |handlers| == 0 && implementsMqListener then ByInterface
    else if |handlers| > 1 then Rejected(|handlers|)
    else ByAnnotation(handlers)
  }

  /** A route that ends in a registered container. */
  predicate Registers(r: Route)
  {
    r.ByInterface? || (r.ByAnnotation? && |r.handlers| > 0 && |r.handlers[0].parameterTypes| > 0)
  }

  function RouteOfBean(bean: ListenerBean): Route
  {
    RouteOf(HandlerMethods(bean.declaredMethods), bean.implementsMqListener)
  }

  /** The `IllegalStateException` message for `n` handler methods on a class
      (`Class.toString` prefixes "class "). */
  function RejectionMessage(className: string, n: nat): string
  {
    "originTargetClass:class " + className
    + "must not have more than one listenerHandlerMethod,excepted one but find" + NatToDecimal(n)
  }

  /** The container is the one built for `bean`. */
  ghost predicate BoundTo(c: MqListenerContainer, bean: ListenerBean)
    reads c
  {
    (c.mqListener == Some(bean.listener) && c.handlerMethod.None? && c.instance.None?)
    || (c.mqListener.None? && c.instance == Some(bean.name))
  }

  /** How the eager `start` of the container registered for `bean` ends: a
      bean registered from its handler method starts exactly when both
      credentials are configured; one registered as an `MqListener` also
      needs its message type to be found. */
  function RegistrationOutcome(bean: ListenerBean, ctx: SpringContext): (r: Completion)
    requires Registers(RouteOfBean(bean))
    ensures r == Done <==>
      ctx.server.accessKey.Some? && ctx.server.secretKey.Some?
      && (RouteOfBean(bean).ByInterface? ==> GetMethodParameterType(bean.listener.genericInterfaces).Ok?)
    ensures r.Thrown? ==> r.error.Runtime?
  {
    var cp := RegisteredProperties(bean.annotation, ctx.resolve);
    RegisteredPropertiesNeedOnlyCredentials(bean.annotation, ctx.resolve, ctx.server);
    match RouteOfBean(bean)
    case ByInterface => StartOutcome(cp, ctx.server, Some(bean.listener), None)
    case ByAnnotation(hs) => StartOutcome(cp, ctx.server, None, Some(hs[0].parameterTypes[0]))
  }

  /** Bean `j` of `beans` took a registering route and its container is
      registered under the name of counter value `start + j + 1` and started. */
  ghost predicate RegisteredAt(containers: map<string, MqListenerContainer>, start: nat, beans: seq<ListenerBean>, j: nat)
    requires j < |beans|
    reads containers.Values
  {
    Registers(RouteOfBean(beans[j]))
    && ContainerName(start + j + 1) in containers
    && BoundTo(containers[ContainerName(start + j + 1)], beans[j])
    && containers[ContainerName(start + j + 1)].started
  }

  /** Bean `j` of `beans` could not be registered, and `r` is why: the
      rejection of several handler methods, the missing handler method or
      parameter, or the wrapped failure of its container's `start` (that
      container stays registered, not started). */
  ghost predicate FailedAt(containers: map<string, MqListenerContainer>, ctx: SpringContext, start: nat,
                           beans: seq<ListenerBean>, j: nat, r: Completion)
    requires j < |beans|
    reads containers.Values
  {
    var route := RouteOfBean(beans[j]);
    if route.Rejected? then r == Thrown(IllegalState(RejectionMessage(beans[j].className, route.found)))
    else if !Registers(route) then r == Thrown(IndexOutOfBounds)
    else
      ContainerName(start + j + 1) in containers
      && BoundTo(containers[ContainerName(start + j + 1)], beans[j])
      && !containers[ContainerName(start + j + 1)].started
      && r.Thrown? && r == RegistrationOutcome(beans[j], ctx)
  }

  class ConsumerContainerConfiguration {
    const registrar: ContainerRegistrar
    const context: SpringContext

    constructor (registrar: ContainerRegistrar, context: SpringContext)
      ensures this.registrar == registrar && this.context == context
    {
      this.registrar := registrar;
      this.context := context;
    }

    /** `registerConsumerContainer(beanName, bean)`: filter the handler
        methods, then register by interface, reject, or register by
        annotation. Only a registering route adds a container, under the next
        counter name. */
    method RegisterConsumerContainer(bean: ListenerBean) returns (r: Completion)
      requires registrar.Valid()
      modifies registrar
      ensures registrar.Valid()
      ensures Registers(RouteOfBean(bean)) ==>
        registrar.counter == old(registrar.counter) + 1
        && ContainerName(registrar.counter) !in old(registrar.containers)
        && ContainerName(registrar.counter) in registrar.containers
        && registrar.containers == old(registrar.containers)[ContainerName(registrar.counter) := registrar.containers[ContainerName(registrar.counter)]]
        && |registrar.containers| == |old(registrar.containers)| + 1
        && fresh(registrar.containers[ContainerName(registrar.counter)])
        && BoundTo(registrar.containers[ContainerName(registrar.counter)], bean)
        && (r == Done <==> registrar.containers[ContainerName(registrar.counter)].started)
        && r == RegistrationOutcome(bean, context)
      ensures RouteOfBean(bean) == ByInterface ==>
        registrar.containers[ContainerName(registrar.counter)].mqListener == Some(bean.listener)
      ensures RouteOfBean(bean).ByAnnotation? && Registers(RouteOfBean(bean)) ==>
        registrar.containers[ContainerName(registrar.counter)].handlerMethod == Some(RouteOfBean(bean).handlers[0])
        && registrar.containers[ContainerName(registrar.counter)].instance == Some(bean.name)
      ensures RouteOfBean(bean).Rejected? ==>
        r == Thrown(IllegalState(RejectionMessage(bean.className, RouteOfBean(bean).found)))
      ensures !Registers(RouteOfBean(bean)) ==>
        r.Thrown? && registrar.counter == old(registrar.counter) && registrar.containers == old(registrar.containers)
      ensures RouteOfBean(bean).ByAnnotation? && !Registers(RouteOfBean(bean)) ==> r == Thrown(IndexOutOfBounds)
    {
      var handlers := CollectHandlerMethods(bean.declaredMethods);
      if |handlers| == 0 && bean.implementsMqListener {
        var c;
        c, r := registrar.RegistryFromInterface(bean.annotation, context, bean.listener);
        return;
      }
      if |handlers| > 1 {
        return Thrown(IllegalState(RejectionMessage(bean.className, |handlers|)));
      }
      var c;
      c, r := registrar.RegistryFromAnnotation(bean.annotation, context, bean.name, handlers);
    }

    /** Register bean `i` of `beans` on its own: it ends registered, or failed
        for the reason `r` gives; every container registered before keeps its
        name. */
    method RegisterOneBean(beans: seq<ListenerBean>, ghost start: nat, i: nat) returns (r: Completion)
      requires i < |beans| && registrar.Valid() && registrar.counter == start + i
      modifies registrar
      ensures registrar.Valid()
      ensures r == Done ==> registrar.counter == start + i + 1 && |registrar.containers| == |old(registrar.containers)| + 1
      ensures r.Thrown? ==> registrar.counter == start + i + (if Registers(RouteOfBean(beans[i])) then 1 else 0)
      ensures r.Thrown? ==>
        |registrar.containers| == |old(registrar.containers)| + (if Registers(RouteOfBean(beans[i])) then 1 else 0)
      ensures forall name :: name in old(registrar.containers) ==>
        name in registrar.containers && registrar.containers[name] == old(registrar.containers)[name]
      ensures r == Done ==> RegisteredAt(registrar.containers, start, beans, i)
      ensures r.Thrown? ==> FailedAt(registrar.containers, context, start, beans, i, r)
    {
      r := RegisterConsumerContainer(beans[i]);
      if Registers(RouteOfBean(beans[i])) {
        assert ContainerName(start + i + 1) == ContainerName(registrar.counter);
      }
    }

    /** One turn of the `forEach` in `init`: register bean `i`, keeping the
        containers of the beans before it. */
    method RegisterBeanAt(beans: seq<ListenerBean>, ghost start: nat, i: nat) returns (r: Completion)
      requires i < |beans| && registrar.Valid() && registrar.counter == start + i
      requires forall j :: 0 <= j < i ==> RegisteredAt(registrar.containers, start, beans, j)
      modifies registrar
      ensures registrar.Valid()
      ensures r == Done ==> registrar.counter == start + i + 1 && |registrar.containers| == |old(registrar.containers)| + 1
      ensures r.Thrown? ==> registrar.counter == start + i + (if Registers(RouteOfBean(beans[i])) then 1 else 0)
      ensures r.Thrown? ==>
        |registrar.containers| == |old(registrar.containers)| + (if Registers(RouteOfBean(beans[i])) then 1 else 0)
      ensures forall name :: name in old(registrar.containers) ==> name in registrar.containers
      ensures forall j :: 0 <= j < i ==> RegisteredAt(registrar.containers, start, beans, j)
      ensures r == Done ==> forall j :: 0 <= j <= i ==> RegisteredAt(registrar.containers, start, beans, j)
      ensures r.Thrown? ==> FailedAt(registrar.containers, context, start, beans, i, r)
    {
      ghost var previous := registrar.containers;
      r := RegisterOneBean(beans, start, i);
      forall j | 0 <= j < i
        ensures RegisteredAt(registrar.containers, start, beans, j)
      {
        assert RegisteredAt(previous, start, beans, j);
        assert registrar.containers[ContainerName(start + j + 1)] == previous[ContainerName(start + j + 1)];
      }
    }

    /** `init`: register every `@MessageListener` bean in turn; the first
        failure ends the whole initialisation. When it completes, every bean
        took a registering route and bean `i` has the container named after
        counter value `old(counter) + i + 1`. When it fails, some bean
        `i` could not be registered, for the reason `r` gives, every bean
        before it was, and no bean after it was tried: the counter and the
        container map grew by the beans up to `i` alone. */
    method Init(beans: seq<ListenerBean>) returns (r: Completion)
      requires registrar.Valid()
      modifies registrar
      ensures registrar.Valid()
      ensures registrar.counter >= old(registrar.counter)
      ensures forall name :: name in old(registrar.containers) ==> name in registrar.containers
      ensures r == Done ==>
        registrar.counter == old(registrar.counter) + |beans|
        && |registrar.containers| == |old(registrar.containers)| + |beans|
      ensures r == Done ==>
        forall i :: 0 <= i < |beans| ==> RegisteredAt(registrar.containers, old(registrar.counter), beans, i)
      ensures r.Thrown? ==>
        exists i :: (0 <= i < |beans| && FailedAt(registrar.containers, context, old(registrar.counter), beans, i, r)
                     && (forall j :: 0 <= j < i ==> RegisteredAt(registrar.containers, old(registrar.counter), beans, j))
                     && var added := i + (if Registers(RouteOfBean(beans[i])) then 1 else 0);
                        registrar.counter == old(registrar.counter) + added
                        && |registrar.containers| == |old(registrar.containers)| + added)
    {
      ghost var start := registrar.counter;
      ghost var before := registrar.containers;
      for i := 0 to |beans|
        invariant registrar.Valid()
        invariant registrar.counter == start + i
        invariant |registrar.containers| == |before| + i
        invariant forall name :: name in before ==> name in registrar.containers
        invariant forall j :: 0 <= j < i ==> RegisteredAt(registrar.containers, start, beans, j)
      {
        r := RegisterBeanAt(beans, start, i);
        if r.Thrown? {
          assert FailedAt(registrar.containers, context, start, beans, i, r);
          return;
        }
      }
      r := Done;
    }
  }
}
