# ONS message starter: a Dafny model

This project models the core of a Spring Boot starter for the Aliyun ONS
(RocketMQ) client. The starter has two halves.

- Consumption. Each bean annotated `@MessageListener` gets one
  `MqListenerContainer`. The bean either implements `MqListener<T>` or has
  one method annotated `@MessageListenerHandlerMethod`.
  - `ConsumerContainerConfiguration` finds the beans and routes each one.
  - `MqListenerContainerRegistrar` builds, names and starts the containers.
  - The container owns a broker consumer. For each delivered message it
    decodes the body, calls the handler directly or through a Spring
    `RetryTemplate`, and answers the broker. After repeated failures it
    escalates to the error-handling strategies.
- Production. `MqTemplate` converts a Spring `Message` and sends it. It sends
  synchronously, asynchronously or one-way, directly or inside a retry
  template.

Both halves share three pieces:
- the JSON message converter `ApplicationJsonMessageMarshallingConverter`;
- the retry-template selection `buildRetryTemplate`;
- the generic-interface lookup `ClassUtils.getMethodParameterType`.

## How the model is built

One module per source file or concern:

| module | models |
|---|---|
| `Common` | null as `Option`, a thrown exception as `Result`/`Completion`, the `Throwable` kinds, `StringUtils.hasText`, decimal rendering |
| `Properties` | `ConsumerProperties`, `ServerProperties`, `@MessageListener`, `@ConsumerRetry`, with their declared defaults; the producer's retry record is the same `RetryConfig` |
| `RetrySelection` | the choice made by `buildRetryTemplate` |
| `ClassUtils` | `getMethodParameterType` as a recursive function over the class's direct generic interfaces |
| `Converter` | `fromMessage` as a function; `toMessage` as a method with a loop, proved equal to the function `OnsMessageOf` |
| `Dispatch` | `doConsume`, `disableRetry`, `handleErrorMessage` and the two broker listeners |
| `Container` | `MqListenerContainer` as a class with its fields |
| `Registrar` | `MqListenerContainerRegistrar`, with the static counter and the registered beans as fields |
| `Configuration` | `ConsumerContainerConfiguration.init` and `registerConsumerContainer` |
| `Producer` | `MqTemplate` as a class; each send path is specified by a function giving the calls it makes and its result |

Collaborators the model cannot see are given as functions inside records
passed as parameters. These are:
- the charset and Jackson;
- the application's handler code;
- `RetryTemplate.execute`;
- the error strategies;
- the broker `Producer`.

The ONS consumer and producer clients are modelled differently: the calls
made on them are appended to ghost logs (`brokerCalls`, `calls`). Reflection
is replaced by plain data: the class's generic interfaces, and the declared
methods with their annotation flags. Placeholder resolution is a function
`string -> string`.

Where the code and its documentation disagree, the model follows the code.
- A `java.lang.Error` escapes both broker listeners. They catch only
  `Exception`, so "the listener never rethrows" holds only for exceptions.
  The converter also catches only `Exception`, so an `Error` from Jackson
  is not wrapped and escapes as it is.
  A null `consumeFailedNum` makes `handleErrorMessage` throw
  `NullPointerException`, which also escapes.
- The error strategies run one after the other. The first strategy that
  throws ends the loop, so the strategies after it are never called.
- `stop` does not clear the handles. A second `stop` shuts them down again,
  and `start` after `stop` creates new ones.
- `asyncSend` without a retry template uses the blocking `send`.
  `sendOneWay` sends the message twice: once in its branch, then once more
  with `sendOneway`.
- `ConsumerProperties.enableRetry` is never set by the registrar, so it is
  always `false`. Local retry is on exactly when the annotation enables it or
  a retry template bean was injected (`Registrar.RegisteredRetryPath`).
- The retry record is stored in the properties after the container has
  received them. The container sees it because both share the same object.
- A bean that has no handler method and does not implement `MqListener`
  goes down the annotation route. There it fails with
  `IndexOutOfBoundsException` before the counter moves.

## Model

| member | source | states |
|---|---|---|
| `Common.NatToDecimal` | src/main/java/com/aihuishou/message/consumer/container/MqListenerContainerRegistrar.java:51 | the counter's decimal text is non-empty, all digits, and one character long exactly below 10 |
| `Common.DecimalInjective` | src/main/java/com/aihuishou/message/consumer/container/MqListenerContainerRegistrar.java:51 | two counter values with the same decimal text are equal |
| `RetrySelection.FromConfig` | src/main/java/com/aihuishou/message/consumer/container/MqListenerContainer.java:334-357 | a template built from a retry record uses its max attempts, initial interval, multiplier and max interval |
| `RetrySelection.SelectRetryTemplate` | src/main/java/com/aihuishou/message/consumer/container/MqListenerContainer.java:327-364 | afterwards a template is always installed: the existing one is kept; otherwise one is built from the record; otherwise the default 3 / 100 / 2 / 1000 |
| `RetrySelection.SelectionIsStable` | src/main/java/com/aihuishou/message/producer/MqTemplate.java:335-372 | once a template is installed, later builds never replace it, whatever record they get |
| `ClassUtils.FirstArgument` | src/main/java/com/aihuishou/message/util/ClassUtils.java:26-32 | a matching interface gives its first type argument when that is a plain class, `Object` when it has none, and `ClassCastException` when the argument is not a plain class |
| `ClassUtils.GetMethodParameterType` | src/main/java/com/aihuishou/message/util/ClassUtils.java:18-41 | the only failure is `ClassCastException`; any result other than `Object` is the first argument of some `MqListener<...>` interface |
| `ClassUtils.FirstMatchDecides` | src/main/java/com/aihuishou/message/util/ClassUtils.java:23-35 | the first `MqListener<...>` interface decides the result; every interface after it is ignored |
| `ClassUtils.NoMatchYieldsObject` | src/main/java/com/aihuishou/message/util/ClassUtils.java:37-40 | plain interfaces and other parameterised interfaces are skipped; with no match the result is `Object` |
| `Converter.FromMessage` | src/main/java/com/aihuishou/message/converter/ApplicationJsonMessageMarshallingConverter.java:32-62 | target `Message` returns the message itself, and only that target does; target `String` gives the body decoded with the charset; any other target gives what Jackson reads from that text; a Jackson exception becomes a `RuntimeException`, and a `java.lang.Error` escapes unchanged |
| `Converter.SplitDestination` | src/main/java/com/aihuishou/message/converter/ApplicationJsonMessageMarshallingConverter.java:90-95 | the destination is split at its first colon: the topic has no colon, topic + ":" + tags rebuilds the destination, and with no colon the tags are empty |
| `Converter.PayloadText` | src/main/java/com/aihuishou/message/converter/ApplicationJsonMessageMarshallingConverter.java:71-88 | a `String` payload is its own text; any other payload, null included, is exactly what Jackson writes, success or failure |
| `Converter.EncodePayload` | src/main/java/com/aihuishou/message/converter/ApplicationJsonMessageMarshallingConverter.java:71-88 | the body is the payload's text encoded with the charset; it fails exactly when producing that text fails, with Jackson's exception wrapped in a `RuntimeException` and an `Error` unchanged |
| `Converter.MessageKey` | src/main/java/com/aihuishou/message/converter/ApplicationJsonMessageMarshallingConverter.java:103-108 | a key is set exactly when the `KEYS` header is present and not the empty string, and it is that header's text |
| `Converter.OnsMessageOf` | src/main/java/com/aihuishou/message/converter/ApplicationJsonMessageMarshallingConverter.java:65-124 | succeeds exactly when the payload encodes; the body is the encoded payload, topic and tags are the destination split at its first colon, the key comes from `KEYS`, the user properties are the `USERS_` copies of the headers, and the redelivery count is 0 |
| `Converter.EncodeBody` | src/main/java/com/aihuishou/message/converter/ApplicationJsonMessageMarshallingConverter.java:69-88 | the payload branch computes exactly the body `EncodePayload` specifies |
| `Converter.CopyUserProperties` | src/main/java/com/aihuishou/message/converter/ApplicationJsonMessageMarshallingConverter.java:110-119 | the loop over the headers builds exactly `UserProperties`: every header but `KEYS`, under `USERS_` |
| `Converter.ToMessage` | src/main/java/com/aihuishou/message/converter/ApplicationJsonMessageMarshallingConverter.java:65-124 | the loop over the headers builds exactly the broker message `OnsMessageOf` describes |
| `Converter.UserPropertiesExact` | src/main/java/com/aihuishou/message/converter/ApplicationJsonMessageMarshallingConverter.java:110-119 | a user property exists exactly when its name is `USERS_` followed by the name of a header other than `KEYS`, and it holds that header's text |
| `Converter.HeadersBecomeUserProperties` | src/main/java/com/aihuishou/message/converter/ApplicationJsonMessageMarshallingConverter.java:110-119 | every header other than `KEYS` becomes user property `USERS_` + name with its text; `KEYS` never does |
| `Converter.StringPayloadRoundTrip` | src/main/java/com/aihuishou/message/converter/ApplicationJsonMessageMarshallingConverter.java:40-46 | if the charset round-trips, a `String` payload through `toMessage` and then `fromMessage` with target `String` comes back unchanged |
| `Dispatch.InvokeHandlers` | src/main/java/com/aihuishou/message/consumer/container/MqListenerContainer.java:295-303 | the listener, when bound, is called first with the decoded argument and a throw there ends the path; then the handler method, when bound, is called on the instance with the same argument, and its throw comes back wrapped in `InvocationTargetException`; reflection's own failures call nothing: a null instance throws `NullPointerException`, a method that does not take exactly one parameter `IllegalArgumentException`; with nothing thrown the path completes |
| `Dispatch.DoConsume` | src/main/java/com/aihuishou/message/consumer/container/MqListenerContainer.java:291-323 | a decode failure is thrown before any call; with retry disabled, the run is the direct path on the decoded argument; otherwise the only event is one hand-over to the template, whose outcome, given one attempt of the callback (the direct path), is the result, or `NullPointerException` when no template exists |
| `Dispatch.StrategyRun` | src/main/java/com/aihuishou/message/consumer/container/MqListenerContainer.java:372-378 | at most one call per strategy; what the calls are is stated by `StrategyRunIsPrefix` |
| `Dispatch.Escalation` | src/main/java/com/aihuishou/message/consumer/container/MqListenerContainer.java:366-381 | throws `NullPointerException` exactly when `consumeFailedNum` is null; strategies are called only when `reconsumeTimes >= consumeFailedNum` |
| `Dispatch.RunStrategies` | src/main/java/com/aihuishou/message/consumer/container/MqListenerContainer.java:372-378 | the loop over the strategies makes the calls `StrategyRun` specifies |
| `Dispatch.HandleErrorMessage` | src/main/java/com/aihuishou/message/consumer/container/MqListenerContainer.java:366-381 | the method makes the calls `Escalation` specifies and fails as it does |
| `Dispatch.ConsumeConcurrently` | src/main/java/com/aihuishou/message/consumer/container/MqListenerContainer.java:241-262 | `CommitMessage` exactly when `doConsume` completes; an `Error` escapes unchanged; on an `Exception` the escalation for that cause runs after the handler calls and the answer is `ReconsumeLater`, or the escalation's own `NullPointerException` escapes |
| `Dispatch.ConsumeOrderly` | src/main/java/com/aihuishou/message/consumer/container/MqListenerContainer.java:267-287 | `Success` exactly when `doConsume` completes; an `Error` escapes unchanged; on an `Exception` the escalation for that cause runs after the handler calls and the answer is `Suspend`, or the escalation's own `NullPointerException` escapes |
| `Dispatch.ListenersAgree` | src/main/java/com/aihuishou/message/consumer/container/MqListenerContainer.java:244-286 | both listeners make the same calls and throw the same throwable; `CommitMessage`/`Success` and `ReconsumeLater`/`Suspend` correspond one to one |
| `Dispatch.StrategyRunIsPrefix` | src/main/java/com/aihuishou/message/consumer/container/MqListenerContainer.java:372-378 | the strategies called are a prefix of the list, in order, once each; the loop stops early only at a strategy that threw |
| `Dispatch.StrategyRunCallsAll` | src/main/java/com/aihuishou/message/consumer/container/MqListenerContainer.java:372-378 | when no strategy throws, each is called once, in list order, with the message and the cause |
| `Dispatch.EscalationThreshold` | src/main/java/com/aihuishou/message/consumer/container/MqListenerContainer.java:366-381 | below `consumeFailedNum` nothing is escalated; at or above it, every strategy is called once, in order |
| `Dispatch.DecodeFailureReachesNoHandler` | src/main/java/com/aihuishou/message/consumer/container/MqListenerContainer.java:244-293 | a body that cannot be decoded reaches no handler; a converter exception is answered `ReconsumeLater` / `Suspend`, and an `Error` from Jackson escapes both listeners with no call made |
| `Dispatch.RetryCompletesWhenHandlersComplete` | src/main/java/com/aihuishou/message/consumer/container/MqListenerContainer.java:306-317 | on the retry path, with a template whose policy lets the first attempt run (a built one needs `maxAttempts >= 1`), when every bound handler completes (or none is bound) and `execute` returns after a completed first attempt, the message is consumed and committed |
| `Dispatch.RetryPathSelection` | src/main/java/com/aihuishou/message/consumer/container/MqListenerContainer.java:295-320 | with retry disabled no template is involved, and when every bound handler completes, the listener and then the handler method are each called exactly once with the decoded argument and the run completes; otherwise no handler is called directly and the callback goes to the template exactly once |
| `Container.RequiredPropertyCheck` | src/main/java/com/aihuishou/message/consumer/container/MqListenerContainer.java:178-181 | succeeds exactly when group, access key, secret key and topic are all set; otherwise reports the first missing one, in that order, with its message |
| `Container.ClientConfigOf` | src/main/java/com/aihuishou/message/consumer/container/MqListenerContainer.java:183-199 | the client gets the credentials, the group as consumer id and the thread count; the name server only when it has text; the message model by its broker name when set |
| `Container.ResolvedMessageType` | src/main/java/com/aihuishou/message/consumer/container/MqListenerContainer.java:137-140 | without an `MqListener` the message type is kept; with one it becomes the type `getMethodParameterType` finds, and it fails exactly when that lookup fails |
| `Container.MqListenerContainer.constructor` | src/main/java/com/aihuishou/message/consumer/container/MqListenerContainer.java:45-129 | a new container is not started, has no handles and no broker calls, and holds the injected values |
| `Container.MqListenerContainer.InitMQConsumer` | src/main/java/com/aihuishou/message/consumer/container/MqListenerContainer.java:176-236 | a missing required property throws before anything is created; otherwise exactly the handle of the consume mode is new, created and subscribed, and the other is untouched |
| `Container.MqListenerContainer.Start` | src/main/java/com/aihuishou/message/consumer/container/MqListenerContainer.java:131-156 | a started container is left as it is; a failed check leaves it unstarted with no broker call; otherwise it creates and subscribes, resolves the type, starts the handles and becomes started; a started container has started its mode's handle |
| `Container.MqListenerContainer.Stop` | src/main/java/com/aihuishou/message/consumer/container/MqListenerContainer.java:159-173 | afterwards not started; each handle that exists is shut down, consumer first; with no handles no broker call is made |
| `Container.MqListenerContainer.BuildRetryTemplate` | src/main/java/com/aihuishou/message/consumer/container/MqListenerContainer.java:327-364 | the installed template becomes the selection `SelectRetryTemplate` makes and is never null |
| `Registrar.ContainerName` | src/main/java/com/aihuishou/message/consumer/container/MqListenerContainerRegistrar.java:51 | a container's name is `MqListenerContainer_` followed by the counter value in decimal |
| `Registrar.ContainerNameInjective` | src/main/java/com/aihuishou/message/consumer/container/MqListenerContainerRegistrar.java:106 | different counter values give different container names |
| `Registrar.NextNameIsFree` | src/main/java/com/aihuishou/message/consumer/container/MqListenerContainerRegistrar.java:29 | the name for the next counter value is never already registered |
| `Registrar.ConsumerPropertiesFrom` | src/main/java/com/aihuishou/message/consumer/container/MqListenerContainerRegistrar.java:86-94 | copies mode, selector type, thread count, message model and failure threshold; resolves the placeholders in topic, group and selector expression; leaves `enableRetry` and `retry` at their defaults |
| `Registrar.RetryConfigFrom` | src/main/java/com/aihuishou/message/consumer/container/MqListenerContainerRegistrar.java:112-121 | all four retry values come from `@ConsumerRetry` |
| `Registrar.RegisteredRetryPath` | src/main/java/com/aihuishou/message/consumer/container/MqListenerContainerRegistrar.java:57-70 | a registered container disables retry exactly when the annotation does not enable it and no template bean exists; enabled without a bean, it gets a template built from `@ConsumerRetry` |
| `Registrar.RegisteredPropertiesNeedOnlyCredentials` | src/main/java/com/aihuishou/message/consumer/container/MqListenerContainerRegistrar.java:37-45 | registered properties always name a group and a topic, so only missing credentials can fail the checks in `start` |
| `Registrar.DefaultAnnotationRegistration` | src/main/java/com/aihuishou/message/annotation/MessageListener.java:41-79 | a bean annotated with only group and topic is consumed concurrently, with tag selector `*`, one thread, clustering, escalation from redelivery 12, and no local retry unless a template bean exists |
| `Registrar.ContainerRegistrar.constructor` | src/main/java/com/aihuishou/message/consumer/container/MqListenerContainerRegistrar.java:29 | the counter starts at 0 with nothing registered |
| `Registrar.ContainerRegistrar.StartContainerIfNecessary` | src/main/java/com/aihuishou/message/consumer/container/MqListenerContainerRegistrar.java:130-141 | a started container is left alone; otherwise it ends as `StartOutcome` says: the failed property check or the failed type lookup, rethrown wrapped in a `RuntimeException`, else started; the broker calls are those of `start` |
| `Registrar.StartOutcome` | src/main/java/com/aihuishou/message/consumer/container/MqListenerContainer.java:131-183 | `start` of a container not yet started, as `startContainerIfNecessary` rethrows it: completes exactly when the required properties are present and the type lookup succeeds; the first missing property, else `ClassCastException`, wrapped in `RuntimeException` |
| `Registrar.AnnotationStartNeedsOnlyCredentials` | src/main/java/com/aihuishou/message/consumer/container/MqListenerContainerRegistrar.java:80-141 | a container registered from a handler method starts exactly when both credentials are configured |
| `Registrar.ContainerRegistrar.NewContainer` | src/main/java/com/aihuishou/message/consumer/container/MqListenerContainerRegistrar.java:106-123 | the counter goes up by one; a new, not started container with an empty broker log is registered under a name not used before, with the copied properties, the selected template, and retry as the annotation asks |
| `Registrar.ContainerRegistrar.RegisterContainer` | src/main/java/com/aihuishou/message/consumer/container/MqListenerContainerRegistrar.java:106-141 | the counter goes up by one and a new container is registered under a name not used before, with the copied properties and the selected template; it is then started eagerly, and the outcome is `StartOutcome` of its properties, listener and type: it completes and is started exactly when the required properties are present and the type lookup succeeds; the broker log is empty after a failed check, the handle creation after a failed lookup, and creation then `start` on success |
| `Registrar.ContainerRegistrar.RegistryFromInterface` | src/main/java/com/aihuishou/message/consumer/container/MqListenerContainerRegistrar.java:31-77 | the new container holds the bean as its `MqListener`, with no handler method and no instance; its retry path and threshold follow the annotation; it is started exactly when `StartOutcome` of the registered properties, the server properties and the listener is `Done`, with the matching broker log |
| `Registrar.ContainerRegistrar.RegistryFromAnnotation` | src/main/java/com/aihuishou/message/consumer/container/MqListenerContainerRegistrar.java:80-128 | the new container holds the bean, the first handler method and that method's first parameter type, and ends as `StartOutcome` says for them (started with creation and `start` in the broker log when the required properties are present); with no handler or no parameter it throws `IndexOutOfBoundsException` and registers nothing |
| `Configuration.HandlerMethods` | src/main/java/com/aihuishou/message/configuration/ConsumerContainerConfiguration.java:66-79 | no longer than the declared methods, and every method it returns is a declared method carrying the handler annotation |
| `Configuration.HandlerMethodsExact` | src/main/java/com/aihuishou/message/configuration/ConsumerContainerConfiguration.java:66-79 | a method is a handler exactly when it is a declared method carrying `@MessageListenerHandlerMethod` |
| `Configuration.CollectHandlerMethods` | src/main/java/com/aihuishou/message/configuration/ConsumerContainerConfiguration.java:66-79 | the filter loop keeps exactly the annotated methods, in declaration order |
| `Configuration.RouteOf` | src/main/java/com/aihuishou/message/configuration/ConsumerContainerConfiguration.java:82-102 | interface route exactly when there is no handler and the class is an `MqListener`; rejection exactly when there is more than one handler; exactly one handler always takes the annotation route |
| `Configuration.ConsumerContainerConfiguration.RegisterConsumerContainer` | src/main/java/com/aihuishou/message/configuration/ConsumerContainerConfiguration.java:61-104 | a registering route adds exactly one container, bound to the bean, under the next free name, and its outcome is `RegistrationOutcome`: the container is started and the call completes exactly when both credentials are configured and, for an `MqListener` bean, its type lookup succeeds; more than one handler throws `IllegalStateException` with its message; no handler method or parameter throws `IndexOutOfBoundsException`; a route that fails registers nothing |
| `Configuration.RegistrationOutcome` | src/main/java/com/aihuishou/message/consumer/container/MqListenerContainerRegistrar.java:31-141 | the eager start of a registered bean completes exactly when both credentials are configured and, for an `MqListener` bean, its message type is found; a failure is a `RuntimeException` |
| `Configuration.ConsumerContainerConfiguration.Init` | src/main/java/com/aihuishou/message/configuration/ConsumerContainerConfiguration.java:50-58 | beans are registered in turn, and nothing registered earlier is lost; on success bean `i` has its own started container under the `i`-th new name; on failure some bean `i` failed, every bean before it is registered and started, and no later bean was tried (the counter and the map grew by the beans up to `i` only): `i` has several handler methods (the rejection), no handler method or parameter (`IndexOutOfBoundsException`), or a container that stays registered and not started, with `RegistrationOutcome` as the failure |
| `Producer.KeyHeaders` | src/main/java/com/aihuishou/message/producer/MqTemplate.java:115-118 | the only header is `KEYS`, present exactly when the key has text, holding the key |
| `Producer.DoConvert` | src/main/java/com/aihuishou/message/producer/MqTemplate.java:285-311 | the payload becomes its text (a `String` unchanged, anything else written by Jackson) and it fails exactly when that does; only a `JsonProcessingException` is wrapped in a `RuntimeException`, anything else escapes unchanged; headers are copied and `contentType` is added as `application/json` only when absent |
| `Producer.SyncSendSpec` | src/main/java/com/aihuishou/message/producer/MqTemplate.java:72-103 | a null message or payload throws `IllegalArgumentException` before any call; a conversion failure is wrapped before any call; a convertible message makes one `send` inside the template (whose outcome, or `NullPointerException` on a null result, is returned) or directly on the producer (its result, wrapped on failure); every failure is a `MessagingException` |
| `Producer.AsyncSendSpec` | src/main/java/com/aihuishou/message/producer/MqTemplate.java:149-178 | the same null check and wrapping; a convertible message makes one `sendAsync` inside the template, or a blocking `send` without one, and succeeds exactly when that call does; without a template or a producer it fails with a wrapped `NullPointerException` and makes no call |
| `Producer.SendOneWaySpec` | src/main/java/com/aihuishou/message/producer/MqTemplate.java:218-246 | the same null check and wrapping; a convertible message makes the branch call (`sendOneway` inside the template, or a blocking `send`), then, unless that failed, one more `sendOneway`; it succeeds exactly when both calls do |
| `Producer.OverloadsPassNullCheck` | src/main/java/com/aihuishou/message/producer/MqTemplate.java:114-121 | a message built by the payload overloads is never rejected as null |
| `Producer.OverloadKeyAndProperties` | src/main/java/com/aihuishou/message/producer/MqTemplate.java:114-121 | through the payload overloads the conversion succeeds, the broker key is the key when it has text, else unset, and of the headers the overloads set, only `USERS_contentType` = `application/json` becomes a user property |
| `Producer.OneWaySendsTwice` | src/main/java/com/aihuishou/message/producer/MqTemplate.java:229-241 | without a template, with a working producer, `sendOneWay` makes a blocking `send` and then a `sendOneway` of the same message |
| `Producer.MqTemplate.constructor` | src/main/java/com/aihuishou/message/producer/MqTemplate.java:60 | a new template has no retry template and has made no calls |
| `Producer.MqTemplate.SyncSend` | src/main/java/com/aihuishou/message/producer/MqTemplate.java:72-103 | returns what `SyncSendSpec` specifies and logs exactly its calls |
| `Producer.MqTemplate.SyncSendPayload` | src/main/java/com/aihuishou/message/producer/MqTemplate.java:114-132 | a failed `doConvert` throws before any call; otherwise behaves as `syncSend` of the converted message |
| `Producer.MqTemplate.AsyncSend` | src/main/java/com/aihuishou/message/producer/MqTemplate.java:149-178 | returns what `AsyncSendSpec` specifies and logs exactly its calls |
| `Producer.MqTemplate.AsyncSendPayload` | src/main/java/com/aihuishou/message/producer/MqTemplate.java:188-206 | a failed `doConvert` throws before any call; otherwise behaves as `asyncSend` of the converted message |
| `Producer.MqTemplate.SendOneWay` | src/main/java/com/aihuishou/message/producer/MqTemplate.java:218-246 | returns what `SendOneWaySpec` specifies and logs exactly its calls |
| `Producer.MqTemplate.SendOneWayPayload` | src/main/java/com/aihuishou/message/producer/MqTemplate.java:254-275 | a failed `doConvert` throws before any call; otherwise behaves as `sendOneWay` of the converted message |
| `Producer.MqTemplate.DoSend` | src/main/java/com/aihuishou/message/producer/MqTemplate.java:278-282 | completes exactly when `syncSend` succeeds, with its calls and its exception |
| `Producer.MqTemplate.AfterPropertiesSet` | src/main/java/com/aihuishou/message/producer/MqTemplate.java:313-323 | a null producer throws `IllegalArgumentException` with the required-property message; otherwise the producer is started once |
| `Producer.MqTemplate.Destroy` | src/main/java/com/aihuishou/message/producer/MqTemplate.java:325-332 | shuts the producer down only when there is one |
| `Producer.MqTemplate.BuildRetryTemplate` | src/main/java/com/aihuishou/message/producer/MqTemplate.java:334-372 | the installed template becomes the selection `SelectRetryTemplate` makes and is never null |

## Left out

- The ONS client is not modelled (`ONSFactory`, `Consumer`, `OrderConsumer`, `Producer`). Handle creation, subscribe, start, shutdown and the sends are entries in a ghost log; the client cannot fail.
- Spring Retry's `execute` is a given function from the template and one attempt of the callback (the bound handlers called once) to the outcome. Only the fact that, on a template that lets the first attempt run (`Dispatch.AllowsFirstAttempt`: a built template needs `maxAttempts >= 1`), a completed first attempt makes `execute` complete is stated (`Dispatch.ExecuteReturnsOnSuccess`). What `execute` does with a built template of `maxAttempts < 1`, which never runs the callback, is not stated, and a provided template bean is taken to allow the first attempt. The attempt loop, the calls of later attempts, the back-off arithmetic (the multiplier is a `double`, carried as a `real`) and sleeping are left out.
- Jackson and the charset are given functions. Only the round-trip lemma assumes that decoding undoes encoding.
- `CompletableFuture.supplyAsync` in `handleErrorMessage`, the consumer thread pools and per-queue ordering are left out. Escalation is a synchronous loop whose calls are recorded in order. A throwable from a strategy is lost in the asynchronous task; it ends the loop and is not rethrown.
- Spring bean registration, `@Autowired` injection, AOP target-class resolution and reflection are inputs:
  - the registered containers are a map of bean names;
  - the injected beans are fields of a context record;
  - a class is its generic interfaces and its declared methods with annotation flags.
- `Environment.resolvePlaceholders` is a given function.
- Logging is left out, and so are `toString` of the container and the `dingTalkServerUrl` property, which no modelled operation reads.
- The text of the `RuntimeException`s thrown by the converter and by `doConvert` is left out. They are modelled as `Runtime(cause)`.
- `Converter.FromMessage`: the `RuntimeException` it throws names Jackson's exception in its message text only and has no cause. `Runtime(e)` stands for that exception, so the throwable the strategies receive is not distinguished from one that chains `e` as its cause, which `toMessage` and `doConvert` do.
- `Dispatch.InvokeHandlers`: reflection's access check is not modelled. A handler method that is not public passes registration, because `getUniqueDeclaredMethods` includes non-public methods, but `Method.invoke` then throws `IllegalAccessException` without running it. The model records a call wrapped in `InvocationTargetException` instead. An argument whose runtime class does not fit the parameter is not modelled either. The `IllegalArgumentException` for a wrong number of parameters carries the message of older JDKs.
- A null selector type is left out. `switch` on it in `initMQConsumer` would throw `NullPointerException`, and the `default` branch's `IllegalArgumentException` cannot be reached with the two enum values. Consume mode, selector type and message model are enums that the annotation always sets, so they are never null.
- The `AtomicLong` counter's overflow is left out. The counter is an unbounded `nat`, and it is a field of the registrar rather than a static.
- The id and timestamp headers that Spring's `MessageBuilder` adds are left out, and so is the `MessagePostProcessor`, which is always null here.
- Setters called on a container after `start` are not modelled.
- `Producer.OverloadKeyAndProperties`: the claim that `USERS_contentType` is the only user property covers only the headers the overloads pass in. In the program, `MessageBuilder.build()` also adds `id` and `timestamp` headers, which become `USERS_id` and `USERS_timestamp`. Those generated headers are not modelled.
- `ProducerProperties` and `MqAutoConfiguration`, which read it, are not part of this model. `MqTemplate.buildRetryTemplate` receives the producer's retry record as a `RetryConfig`.
