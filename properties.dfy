/** The configuration records of the starter with the defaults their Java
    declarations give them: `ConsumerProperties` and its nested `Retry`,
    `ServerProperties`, and the `@MessageListener` / `@ConsumerRetry`
    annotations. The producer's retry record (`ProducerProperties.Retry`) is a
    `RetryConfig` handed to `MqTemplate.buildRetryTemplate`. A Java field that may be
    null is an `Option`. */
module Properties {
  import opened Common

  datatype ConsumeMode = CONCURRENTLY | ORDERLY

  datatype SelectorType = TAG | SQL92

  datatype MessageModel = CLUSTERING | BROADCASTING

  /** `getModeCN()` of the broker's message-model enum. */
  function ModeName(m: MessageModel): string
  {
    match m
    case CLUSTERING => "CLUSTERING"
    case BROADCASTING => "BROADCASTING"
  }

  /** Local (non-broker) retry settings: `ConsumerProperties.Retry` and
      `ProducerProperties.Retry` have the same four fields. The multiplier is a
      Java `double`; it is only carried, never computed with. */
  datatype RetryConfig = RetryConfig(
    maxAttempts: int,
    backOffInitialInterval: int,
    backOffMaxInterval: int,
    backOffMultiplier: real)

  /** A freshly constructed `ConsumerProperties.Retry`. */
  const ConsumerRetryDefaults := RetryConfig(3, 100, 1000, 2.0)

  datatype ConsumerProperties = ConsumerProperties(
    consumerGroup: Option<string>,
    topic: Option<string>,
    consumeMode: ConsumeMode,
    selectorType: SelectorType,
    selectorExpress: string,
    messageModel: Option<MessageModel>,
    consumeThreadNum: Option<int>,
    consumeFailedNum: Option<int>,
    enableRetry: bool,
    retry: Option<RetryConfig>)

  /** A freshly constructed `ConsumerProperties`. */
  const ConsumerPropertiesDefaults := ConsumerProperties(
    None, None, CONCURRENTLY, TAG, "*", Some(CLUSTERING), None, None, false, None)

  /** Broker address and credentials, shared by every container. */
  datatype ServerProperties = ServerProperties(
    nameServer: Option<string>,
    accessKey: Option<string>,
    secretKey: Option<string>)

  /** The `@ConsumerRetry` annotation. */
  datatype ConsumerRetryAnnotation = ConsumerRetryAnnotation(
    maxAttempts: int,
    backOffInitialInterval: int,
    backOffMaxInterval: int,
    backOffMultiplier: real)

  const ConsumerRetryAnnotationDefaults := ConsumerRetryAnnotation(3, 1000, 10000, 2.0)

  /** The `@MessageListener` annotation on a listener bean's class. */
  datatype MessageListenerAnnotation = MessageListenerAnnotation(
    consumerGroup: string,
    topic: string,
    selectorType: SelectorType,
    selectorExpress: string,
    consumeMode: ConsumeMode,
    messageModel: MessageModel,
    consumeThreadNum: int,
    consumeFailedNum: int,
    enableRetry: bool,
    retry: ConsumerRetryAnnotation)

  /** `@MessageListener(consumerGroup = g, topic = t)` with every other element left at its default. */
  function AnnotationDefaults(consumerGroup: string, topic: string): MessageListenerAnnotation
  {
    MessageListenerAnnotation(
      consumerGroup, topic, TAG, "*", CONCURRENTLY, CLUSTERING, 1, 12, false,
      ConsumerRetryAnnotationDefaults)
  }
}
