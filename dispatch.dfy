/** What a container does with one delivered message: the two broker
    listeners (`DefaultMessageListener`, `DefaultMessageListenerOrderly`),
    `MessageListenerMethodHandler.doConsume`, `disableRetry` and
    `handleErrorMessage`. The container's fields are read through a
    `Binding`; the application's handler code, Spring Retry's `execute` and
    the error strategies are collaborators whose outcomes are given as
    functions. Each run yields the outcome and the trace of collaborator
    calls it made. */
module Dispatch {
  import opened Common
  import opened RetrySelection
  import opened ClassUtils
  import opened Converter

  /** The `MqListener` bean; `genericInterfaces` are those of its runtime class. */
  datatype ListenerRef = ListenerRef(bean: string, genericInterfaces: seq<GenericInterface>)

  /** A `java.lang.reflect.Method`. */
  datatype MethodRef = MethodRef(name: string, parameterTypes: seq<TypeRef>)

  datatype StrategyRef = StrategyRef(name: string)

  /** One call into application handler code. */
  datatype Invocation =
    | OnMessage(listener: ListenerRef, arg: Arg)
    | Invoke(handlerMethod: MethodRef, instance: string, arg: Arg)

  datatype Event =
    | Called(invocation: Invocation)
      /** The handler callback was handed to `retryTemplate.execute`. */
    | RetriedThrough(template: RetryTemplate, arg: Arg)
      /** `handleErrorMessage(message, throwable)` of one error strategy. */
    | Escalated(strategy: StrategyRef, message: OnsMessage, cause: Throwable)

  /** The container fields the message path reads. */
  datatype Binding = Binding(
    messageType: Option<TypeRef>,
    listener: Option<ListenerRef>,
    handlerMethod: Option<MethodRef>,
    instance: Option<string>,
    retryTemplate: Option<RetryTemplate>,
    enableRetry: bool,
    consumeFailedNum: Option<int>,
    strategies: Option<seq<StrategyRef>>)

  datatype Run = Run(events: seq<Event>, outcome: Completion)

  /** The collaborators: the converter, what handler code does when called,
      what `retryTemplate.execute` ends with given the template and the run of
      one attempt of the callback (the bound handlers called once), and
      whether a strategy throws. */
  datatype Env = Env(
    converter: ConverterConfig,
    handler: Invocation -> Completion,
    execute: (RetryTemplate, Run) -> Completion,
    strategyThrows: (StrategyRef, OnsMessage, Throwable) -> bool)

  /** A template whose `SimpleRetryPolicy` lets the first attempt run: a
      built one needs `maxAttempts >= 1` (with fewer, `canRetry` is false
      before the first attempt and the callback never runs). */
  predicate AllowsFirstAttempt(t: RetryTemplate)
  {
    t.Built? ==> t.maxAttempts >= 1
  }

  /** Spring Retry's `execute` on template `t`: when `t` lets the first
      attempt run and that attempt completes, its (null) value is returned. */
  ghost predicate ExecuteReturnsOnSuccess(env: Env, t: RetryTemplate)
  {
    AllowsFirstAttempt(t) && forall attempt: Run :: attempt.outcome == Done ==> env.execute(t, attempt) == Done
  }

  /** Acknowledgements of the concurrent listener. */
  datatype Action = CommitMessage | ReconsumeLater

  /** Acknowledgements of the ordered listener. */
  datatype OrderAction = Success | Suspend

  /** What a broker listener did: its calls, and the acknowledgement it
      returned or the throwable it let escape. */
  datatype Delivery<A> = Delivery(events: seq<Event>, reply: Result<A, Throwable>)

  /** `disableRetry()`: no template and local retry not enabled. */
  predicate DisableRetry(b: Binding)
  {
    b.retryTemplate.None? && !b.enableRetry
  }

  /** The listener ran to completion, or none is bound. */
  predicate ListenerCompleted(b: Binding, arg: Arg, env: Env)
  {
    b.listener.None? || env.handler(OnMessage(b.listener.value, arg)) == Done
  }

  /** The call made on a bound `MqListener`. */
  function ListenerCalls(b: Binding, arg: Arg): (events: seq<Event>)
    ensures b.listener.None? ==> events == []
    ensures b.listener.Some? ==> events == [Called(OnMessage(b.listener.value, arg))]
  {
    if b.listener.Some? then [Called(OnMessage(b.listener.value, arg))] else []
  }

  /** The call made on a bound handler method with its instance. */
  function MethodCalls(b: Binding, arg: Arg): (events: seq<Event>)
    ensures b.handlerMethod.None? || b.instance.None? ==> events == []
    ensures b.handlerMethod.Some? && b.instance.Some? ==>
      events == [Called(Invoke(b.handlerMethod.value, b.instance.value, arg))]
  {
    if b.handlerMethod.Some? && b.instance.Some? then [Called(Invoke(b.handlerMethod.value, b.instance.value, arg))] else []
  }

  /** `Method.invoke` with the one decoded argument on a method that does
      not take exactly one parameter: reflection refuses the call. */
  const WrongArity := IllegalArgument("wrong number of arguments")

  /** Every bound handler can be called and completes. */
  predicate HandlersComplete(b: Binding, arg: Arg, env: Env)
  {
    ListenerCompleted(b, arg, env)
    && (b.handlerMethod.Some? ==>
          b.instance.Some? && |b.handlerMethod.value.parameterTypes| == 1
          && env.handler(Invoke(b.handlerMethod.value, b.instance.value, arg)) == Done)
  }

  /** The direct path: `mqListener.onMessage(obj)` when a listener is bound,
      then `handlerMethod.invoke(instance, obj)` when a method is bound. A
      throwable from the listener ends the run; one from the method arrives
      wrapped in `InvocationTargetException`. Reflection's own checks come
      before the method runs: a null instance is a `NullPointerException`,
      and a method that does not take exactly one parameter an
      `IllegalArgumentException`; neither calls the method. */
  function InvokeHandlers(b: Binding, arg: Arg, env: Env): (r: Run)
    ensures forall e :: e in r.events ==> e.Called?
    ensures |r.events| <= 2
    ensures b.listener.None? && b.handlerMethod.None? ==> r == Run([], Done)
    ensures b.listener.Some? ==> |r.events| >= 1 && r.events[0] == Called(OnMessage(b.listener.value, arg))
    ensures b.listener.Some? && env.handler(OnMessage(b.listener.value, arg)).Thrown? ==>
      r == Run([Called(OnMessage(b.listener.value, arg))], env.handler(OnMessage(b.listener.value, arg)))
    ensures ListenerCompleted(b, arg, env) && b.handlerMethod.None? ==> r == Run(ListenerCalls(b, arg), Done)
    ensures ListenerCompleted(b, arg, env) && b.handlerMethod.Some? && b.instance.None? ==>
      r == Run(ListenerCalls(b, arg), Thrown(NullPointer))
    ensures ListenerCompleted(b, arg, env) && b.handlerMethod.Some? && b.instance.Some?
            && |b.handlerMethod.value.parameterTypes| != 1 ==>
      r == Run(ListenerCalls(b, arg), Thrown(WrongArity))
    ensures ListenerCompleted(b, arg, env) && b.handlerMethod.Some? && b.instance.Some?
            && |b.handlerMethod.value.parameterTypes| == 1 ==>
      var call := Invoke(b.handlerMethod.value, b.instance.value, arg);
      r.events == ListenerCalls(b, arg) + [Called(call)]
      && (env.handler(call) == Done ==> r.outcome == Done)
      && (env.handler(call).Thrown? ==> r.outcome == Thrown(InvocationTarget(env.handler(call).error)))
  {
    var first := if b.listener.Some? then [Called(OnMessage(b.listener.value, arg))] else [];
    if b.listener.Some? && env.handler(OnMessage(b.listener.value, arg)).Thrown? then
      Run(first, env.handler(OnMessage(b.listener.value, arg)))
    else if b.handlerMethod.None? then Run(first, Done)
    else if b.instance.None? then Run(first, Thrown(NullPointer))
    else if |b.handlerMethod.value.parameterTypes| != 1 then Run(first, Thrown(WrongArity))
    else
      var call := Invoke(b.handlerMethod.value, b.instance.value, arg);
      match env.handler(call)
      case Done => Run(first + [Called(call)], Done)
      case Thrown(t) => Run(first + [Called(call)], Thrown(InvocationTarget(t)))
  }

  /** `doConsume(message)`: decode, then call the handlers once directly when
      retry is disabled, or hand them to `retryTemplate.execute` as its
      callback otherwise (a missing template then fails with
      `NullPointerException`). */
  function DoConsume(b: Binding, env: Env, m: OnsMessage): (r: Run)
    ensures FromMessage(m, b.messageType, env.converter).Err? ==>
      r == Run([], Thrown(FromMessage(m, b.messageType, env.converter).error))
    ensures DisableRetry(b) ==> forall e :: e in r.events ==> e.Called?
    ensures !DisableRetry(b) ==> forall e :: e in r.events ==> e.RetriedThrough?
    ensures !DisableRetry(b) && FromMessage(m, b.messageType, env.converter).Ok? && b.retryTemplate.Some? ==>
      var arg := FromMessage(m, b.messageType, env.converter).value;
      r == Run([RetriedThrough(b.retryTemplate.value, arg)], env.execute(b.retryTemplate.value, InvokeHandlers(b, arg, env)))
    ensures !DisableRetry(b) && FromMessage(m, b.messageType, env.converter).Ok? && b.retryTemplate.None? ==>
      r == Run([], Thrown(NullPointer))
    ensures DisableRetry(b) && FromMessage(m, b.messageType, env.converter).Ok? ==>
      r == InvokeHandlers(b, FromMessage(m, b.messageType, env.converter).value, env)
  {
    match FromMessage(m, b.messageType, env.converter)
    case Err(e) => Run([], Thrown(e))
    case Ok(arg) =>
      if DisableRetry(b) then InvokeHandlers(b, arg, env)
      else
        match b.retryTemplate
        case None => Run([], Thrown(NullPointer))
        case Some(t) => Run([RetriedThrough(t, arg)], env.execute(t, InvokeHandlers(b, arg, env)))
  }

  /** The strategy loop: each strategy in list order with the message and the
      cause; a strategy that throws ends the loop (the throwable is lost in
      the asynchronous task). */
  function StrategyRun(strategies: seq<StrategyRef>, m: OnsMessage, t: Throwable, env: Env): (events: seq<Event>)
    ensures |events| <= |strategies|
  {
    if |strategies| == 0 then []
    else if env.strategyThrows(strategies[0], m, t) then [Escalated(strategies[0], m, t)]
    else [Escalated(strategies[0], m, t)] + StrategyRun(strategies[1..], m, t, env)
  }

  /** Every strategy called exactly once, in list order. */
  function EveryStrategy(strategies: seq<StrategyRef>, m: OnsMessage, t: Throwable): (events: seq<Event>)
    ensures |events| == |strategies|
    ensures forall i :: 0 <= i < |strategies| ==> events[i] == Escalated(strategies[i], m, t)
  {
    seq(|strategies|, i requires 0 <= i < |strategies| => Escalated(strategies[i], m, t))
  }

  /** `handleErrorMessage(message, t)`: below the threshold nothing happens; at
      or above it the strategy loop runs (a null strategy list makes the task
      fail at once); a null `consumeFailedNum` throws `NullPointerException`. */
  function Escalation(b: Binding, env: Env, m: OnsMessage, t: Throwable): (r: Result<seq<Event>, Throwable>)
    ensures r.Err? <==> b.consumeFailedNum.None?
    ensures r.Err? ==> r.error == NullPointer
    ensures r.Ok? && r.value != [] ==> m.reconsumeTimes >= b.consumeFailedNum.value
  {
    match b.consumeFailedNum
    case None => Err(NullPointer)
    case Some(n) =>
      if m.reconsumeTimes >= n then
        match b.strategies
        case None => Ok([])
        case Some(ss) => Ok(StrategyRun(ss, m, t, env))
      else Ok([])
  }

  /** One step of the strategy loop at position `i`. */
  lemma StrategyRunStep(strategies: seq<StrategyRef>, i: nat, m: OnsMessage, t: Throwable, env: Env)
    requires i < |strategies|
    ensures StrategyRun(strategies[i..], m, t, env) ==
      if env.strategyThrows(strategies[i], m, t) then [Escalated(strategies[i], m, t)]
      else [Escalated(strategies[i], m, t)] + StrategyRun(strategies[i + 1..], m, t, env)
  {
    assert strategies[i..][0] == strategies[i];
    assert strategies[i..][1..] == strategies[i + 1..];
  }

  /** The loop invariant of `RunStrategies` carried over one strategy. */
  lemma StrategyLoopStep(strategies: seq<StrategyRef>, i: nat, events: seq<Event>, m: OnsMessage, t: Throwable, env: Env)
    requires i < |strategies|
    requires events + StrategyRun(strategies[i..], m, t, env) == StrategyRun(strategies, m, t, env)
    ensures env.strategyThrows(strategies[i], m, t) ==>
      events + [Escalated(strategies[i], m, t)] == StrategyRun(strategies, m, t, env)
    ensures !env.strategyThrows(strategies[i], m, t) ==>
      (events + [Escalated(strategies[i], m, t)]) + StrategyRun(strategies[i + 1..], m, t, env) == StrategyRun(strategies, m, t, env)
  {
    StrategyRunStep(strategies, i, m, t, env);
    var e := Escalated(strategies[i], m, t);
    if !env.strategyThrows(strategies[i], m, t) {
      var rest := StrategyRun(strategies[i + 1..], m, t, env);
      assert events + ([e] + rest) == (events + [e]) + rest;
    }
  }

  /** The strategy loop as the source runs it. */
  method RunStrategies(strategies: seq<StrategyRef>, m: OnsMessage, t: Throwable, env: Env) returns (events: seq<Event>)
    ensures events == StrategyRun(strategies, m, t, env)
  {
    events := [];
    var i := 0;
    while i < |strategies|
      invariant 0 <= i <= |strategies|
      invariant events + StrategyRun(strategies[i..], m, t, env) == StrategyRun(strategies, m, t, env)
    {
      StrategyLoopStep(strategies, i, events, m, t, env);
      events := events + [Escalated(strategies[i], m, t)];
      if env.strategyThrows(strategies[i], m, t) {
        return;
      }
      i := i + 1;
    }
    assert strategies[i..] == [];
  }

  /** `handleErrorMessage(message, t)` as the source runs it. */
  method HandleErrorMessage(b: Binding, env: Env, m: OnsMessage, t: Throwable) returns (r: Result<seq<Event>, Throwable>)
    ensures r == Escalation(b, env, m, t)
  {
    if b.consumeFailedNum.None? {
      return Err(NullPointer);
    }
    var events: seq<Event> := [];
    if m.reconsumeTimes >= b.consumeFailedNum.value && b.strategies.Some? {
      events := RunStrategies(b.strategies.value, m, t, env);
    }
    r := Ok(events);
  }

  /** `DefaultMessageListener.consume`: `CommitMessage` when `doConsume`
      completes; on an `Exception`, escalate and answer `ReconsumeLater`. A
      `java.lang.Error` is not caught, and a failure of the escalation itself
      escapes too. */
  function ConsumeConcurrently(b: Binding, env: Env, m: OnsMessage): (d: Delivery<Action>)
    ensures d.reply == Ok(CommitMessage) <==> DoConsume(b, env, m).outcome.Done?
    ensures DoConsume(b, env, m).events <= d.events
    ensures (DoConsume(b, env, m).outcome.Thrown? && IsException(DoConsume(b, env, m).outcome.error)
             && b.consumeFailedNum.Some?) ==> d.reply == Ok(ReconsumeLater)
    ensures d.reply.Err? ==> DoConsume(b, env, m).outcome.Thrown?
    ensures var run := DoConsume(b, env, m);
      run.outcome.Thrown? && !IsException(run.outcome.error) ==> d == Delivery(run.events, Err(run.outcome.error))
    ensures var run := DoConsume(b, env, m);
      run.outcome.Thrown? && IsException(run.outcome.error) ==>
        match Escalation(b, env, m, run.outcome.error)
        case Err(e) => d == Delivery(run.events, Err(e))
        case Ok(escalated) => d == Delivery(run.events + escalated, Ok(ReconsumeLater))
  {
    var run := DoConsume(b, env, m);
    match run.outcome
    case Done => Delivery(run.events, Ok(CommitMessage))
    case Thrown(t) =>
      if !IsException(t) then Delivery(run.events, Err(t))
      else
        match Escalation(b, env, m, t)
        case Err(e) => Delivery(run.events, Err(e))
        case Ok(escalated) => Delivery(run.events + escalated, Ok(ReconsumeLater))
  }

  /** `DefaultMessageListenerOrderly.consume`: the same, answering `Success`
      or `Suspend`. */
  function ConsumeOrderly(b: Binding, env: Env, m: OnsMessage): (d: Delivery<OrderAction>)
    ensures d.reply == Ok(Success) <==> DoConsume(b, env, m).outcome.Done?
    ensures (DoConsume(b, env, m).outcome.Thrown? && IsException(DoConsume(b, env, m).outcome.error)
             && b.consumeFailedNum.Some?) ==> d.reply == Ok(Suspend)
    ensures DoConsume(b, env, m).events <= d.events
    ensures var run := DoConsume(b, env, m);
      run.outcome.Thrown? && !IsException(run.outcome.error) ==> d == Delivery(run.events, Err(run.outcome.error))
    ensures var run := DoConsume(b, env, m);
      run.outcome.Thrown? && IsException(run.outcome.error) ==>
        match Escalation(b, env, m, run.outcome.error)
        case Err(e) => d == Delivery(run.events, Err(e))
        case Ok(escalated) => d == Delivery(run.events + escalated, Ok(Suspend))
  {
    var run := DoConsume(b, env, m);
    match run.outcome
    case Done => Delivery(run.events, Ok(Success))
    case Thrown(t) =>
      if !IsException(t) then Delivery(run.events, Err(t))
      else
        match Escalation(b, env, m, t)
        case Err(e) => Delivery(run.events, Err(e))
        case Ok(escalated) => Delivery(run.events + escalated, Ok(Suspend))
  }

  // ---------------------------------------------------------------- properties

  /** The two listeners make the same calls and differ only in the names of
      their answers. */
  lemma ListenersAgree(b: Binding, env: Env, m: OnsMessage)
    ensures ConsumeConcurrently(b, env, m).events == ConsumeOrderly(b, env, m).events
    ensures ConsumeConcurrently(b, env, m).reply == Ok(CommitMessage) <==> ConsumeOrderly(b, env, m).reply == Ok(Success)
    ensures ConsumeConcurrently(b, env, m).reply == Ok(ReconsumeLater) <==> ConsumeOrderly(b, env, m).reply == Ok(Suspend)
    ensures ConsumeConcurrently(b, env, m).reply.Err? ==> ConsumeOrderly(b, env, m).reply == Err(ConsumeConcurrently(b, env, m).reply.error)
  {
  }

  /** The strategy loop calls a prefix of the strategies, each once and in
      order; it stops early only at a strategy that threw. */
  lemma {:induction false} StrategyRunIsPrefix(strategies: seq<StrategyRef>, m: OnsMessage, t: Throwable, env: Env)
    ensures StrategyRun(strategies, m, t, env) <= EveryStrategy(strategies, m, t)
    ensures var n := |StrategyRun(strategies, m, t, env)|;
      n < |strategies| ==> n > 0 && env.strategyThrows(strategies[n - 1], m, t)
  {
    if |strategies| > 0 && !env.strategyThrows(strategies[0], m, t) {
      var head, tail := Escalated(strategies[0], m, t), strategies[1..];
      StrategyRunIsPrefix(tail, m, t, env);
      var rest := StrategyRun(tail, m, t, env);
      assert StrategyRun(strategies, m, t, env) == [head] + rest;
      assert EveryStrategy(strategies, m, t) == [head] + EveryStrategy(tail, m, t);
      if |rest| < |tail| {
        assert tail[|rest| - 1] == strategies[|rest|];
      }
    }
  }

  /** When no strategy throws, every registered strategy is called exactly
      once, in list order, with the message and the cause. */
  lemma {:induction false} StrategyRunCallsAll(strategies: seq<StrategyRef>, m: OnsMessage, t: Throwable, env: Env)
    requires forall i :: 0 <= i < |strategies| ==> !env.strategyThrows(strategies[i], m, t)
    ensures StrategyRun(strategies, m, t, env) == EveryStrategy(strategies, m, t)
  {
    if |strategies| > 0 {
      assert !env.strategyThrows(strategies[0], m, t);
      StrategyRunCallsAll(strategies[1..], m, t, env);
      assert EveryStrategy(strategies, m, t) == [Escalated(strategies[0], m, t)] + EveryStrategy(strategies[1..], m, t);
    }
  }

  /** The threshold: one redelivery short of `consumeFailedNum` nothing is
      escalated; at `consumeFailedNum` or beyond, with strategies that do not
      throw, each is called once, in order. */
  lemma EscalationThreshold(b: Binding, env: Env, m: OnsMessage, t: Throwable)
    requires b.consumeFailedNum.Some? && b.strategies.Some?
    requires forall i :: 0 <= i < |b.strategies.value| ==> !env.strategyThrows(b.strategies.value[i], m, t)
    ensures m.reconsumeTimes < b.consumeFailedNum.value ==> Escalation(b, env, m, t) == Ok([])
    ensures m.reconsumeTimes >= b.consumeFailedNum.value ==>
      Escalation(b, env, m, t) == Ok(EveryStrategy(b.strategies.value, m, t))
  {
    StrategyRunCallsAll(b.strategies.value, m, t, env);
  }

  /** A payload that cannot be decoded reaches no handler code. When the
      converter threw an exception, the message is still answered
      `ReconsumeLater` / `Suspend`; an `Error` from Jackson escapes both
      listeners with no call made. */
  lemma DecodeFailureReachesNoHandler(b: Binding, env: Env, m: OnsMessage)
    requires FromMessage(m, b.messageType, env.converter).Err?
    requires b.consumeFailedNum.Some?
    ensures forall e :: e in ConsumeConcurrently(b, env, m).events ==> e.Escalated?
    ensures var t := FromMessage(m, b.messageType, env.converter).error;
      IsException(t) ==> ConsumeConcurrently(b, env, m).reply == Ok(ReconsumeLater) && ConsumeOrderly(b, env, m).reply == Ok(Suspend)
    ensures var t := FromMessage(m, b.messageType, env.converter).error;
      !IsException(t) ==> ConsumeConcurrently(b, env, m) == Delivery([], Err(t)) && ConsumeOrderly(b, env, m) == Delivery([], Err(t))
  {
    var t := FromMessage(m, b.messageType, env.converter).error;
    if !IsException(t) {
      return;
    }
    match Escalation(b, env, m, t)
    case Ok(escalated) =>
      if b.strategies.Some? && m.reconsumeTimes >= b.consumeFailedNum.value {
        StrategyRunIsPrefix(b.strategies.value, m, t, env);
        forall e | e in escalated ensures e.Escalated? {
          var i :| 0 <= i < |escalated| && escalated[i] == e;
          assert escalated[i] == EveryStrategy(b.strategies.value, m, t)[i];
        }
      }
  }

  /** With retry disabled, each bound handler is called at most once and no
      template is involved; when every bound handler completes, the listener
      and then the handler method are each called exactly once with the
      decoded argument and the run completes. Otherwise no handler is called
      directly and the callback goes to the template exactly once. */
  lemma RetryPathSelection(b: Binding, env: Env, m: OnsMessage)
    requires FromMessage(m, b.messageType, env.converter).Ok?
    ensures DisableRetry(b) ==>
      (b.listener.None? && b.handlerMethod.None? ==> DoConsume(b, env, m).events == []) &&
      |DoConsume(b, env, m).events| <= 2 && forall e :: e in DoConsume(b, env, m).events ==> e.Called?
    ensures var arg := FromMessage(m, b.messageType, env.converter).value;
      DisableRetry(b) && HandlersComplete(b, arg, env) ==>
        DoConsume(b, env, m) == Run(ListenerCalls(b, arg) + MethodCalls(b, arg), Done)
    ensures !DisableRetry(b) && b.retryTemplate.Some? ==>
      DoConsume(b, env, m).events == [RetriedThrough(b.retryTemplate.value, FromMessage(m, b.messageType, env.converter).value)]
  {
  }

  /** On the retry path, with a template that lets the first attempt run, a
      binding whose bound handlers all complete (for instance one with
      neither a listener nor a handler method) completes inside `execute`
      and is committed. */
  lemma RetryCompletesWhenHandlersComplete(b: Binding, env: Env, m: OnsMessage)
    requires FromMessage(m, b.messageType, env.converter).Ok?
    requires b.retryTemplate.Some?
    requires ExecuteReturnsOnSuccess(env, b.retryTemplate.value)
    requires HandlersComplete(b, FromMessage(m, b.messageType, env.converter).value, env)
    ensures DoConsume(b, env, m) ==
      Run([RetriedThrough(b.retryTemplate.value, FromMessage(m, b.messageType, env.converter).value)], Done)
    ensures ConsumeConcurrently(b, env, m).reply == Ok(CommitMessage)
    ensures ConsumeOrderly(b, env, m).reply == Ok(Success)
  {
    var arg := FromMessage(m, b.messageType, env.converter).value;
    assert InvokeHandlers(b, arg, env).outcome == Done;
  }
}
