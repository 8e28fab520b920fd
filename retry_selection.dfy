/** The choice of local retry template made by `buildRetryTemplate`, which the
    consumer container and the producer template implement identically: keep
    the template already installed, else build one from the supplied retry
    record, else build the fixed default (3 attempts, 100 ms initial interval,
    multiplier 2, 1000 ms maximum interval). Spring Retry's own behaviour
    (attempt loop, back-off arithmetic, sleeping) is not part of the model. */
module RetrySelection {
  import opened Common
  import opened Properties

  /** A `RetryTemplate`: either one `buildRetryTemplate` assembled (a
      `SimpleRetryPolicy` with `maxAttempts` and an `ExponentialBackOffPolicy`
      with the three back-off values as handed to their setters), or a
      template bean the application supplied itself. */
  datatype RetryTemplate =
    | Built(maxAttempts: int, initialInterval: int, multiplier: real, maxInterval: int)
    | Provided(beanName: string)

  const DefaultTemplate := Built(3, 100, 2.0, 1000)

  /** The template assembled from a retry record. */
  function FromConfig(c: RetryConfig): (t: RetryTemplate)
    ensures t.Built?
    ensures t.maxAttempts == c.maxAttempts && t.multiplier == c.backOffMultiplier
    ensures t.initialInterval == c.backOffInitialInterval && t.maxInterval == c.backOffMaxInterval
  {
    Built(c.maxAttempts, c.backOffInitialInterval, c.backOffMultiplier, c.backOffMaxInterval)
  }

  /** The template installed after `buildRetryTemplate(config)` when `current`
      was installed before. */
  function SelectRetryTemplate(current: Option<RetryTemplate>, config: Option<RetryConfig>): (r: Option<RetryTemplate>)
    ensures r.Some?
    ensures current.Some? ==> r == current
    ensures current.None? && config.Some? ==> r == Some(FromConfig(config.value))
    ensures current.None? && config.None? ==> r == Some(DefaultTemplate)
  {
    match current
    case Some(_) => current
    case None =>
      match config
      case Some(c) => Some(FromConfig(c))
      case None => Some(DefaultTemplate)
  }

  /** Once a template is installed, building again never replaces it, whatever
      record is supplied. */
  lemma SelectionIsStable(current: Option<RetryTemplate>, first: Option<RetryConfig>, second: Option<RetryConfig>)
    ensures SelectRetryTemplate(SelectRetryTemplate(current, first), second) == SelectRetryTemplate(current, first)
  {
  }
}
