/**
 * The `hrai_logger.readable` decorator of hrai_python/__init__.py: it logs
 * the request's messages, calls the wrapped function with the same
 * arguments, logs the response or the error, and hands the outcome back
 * unchanged. The wrapped function is a parameter; the two clock readings are
 * parameters too.
 */
module SimpleLogger {
  import opened Wrappers
  import opened Values
  import opened Logging

  /** `kwargs.get("messages", args[0] if args else None)` */
  function Messages(args: Args): Value
  {
    if "messages" in args.keywords then args.keywords["messages"]
    else if |args.positional| > 0 then args.positional[0]
    else NoneValue
  }

  /**
   * The request record shows the `messages` keyword when the call passed one,
   * otherwise the first positional argument, and None for a call with neither.
   */
  lemma MessagesChoice(args: Args)
    ensures "messages" in args.keywords ==> Messages(args) == args.keywords["messages"]
    ensures "messages" !in args.keywords && args.positional != [] ==> Messages(args) == args.positional[0]
    ensures "messages" !in args.keywords && args.positional == [] ==> Messages(args) == NoneValue
  {
  }

  /**
   * `wrapper(*args, **kwargs)` for `func`: the caller sees exactly what `func`
   * returned or raised, and the log gains the request record and then the
   * record of the outcome.
   */
  method Readable(log: LogStream, func: Args -> Result<Value, Exception>, args: Args,
                  requestTime: string, outcomeTime: string)
    returns (r: Result<Value, Exception>)
    modifies log
    ensures r == func(args)
    // a call that returns: the request record, then the response record
    ensures r.Success? ==> log.records == old(log.records) + [
      Record(InfoLevel, ChatCompletionRequest(Messages(args), requestTime)),
      Record(InfoLevel, ChatCompletionResponse(r.value, outcomeTime))]
    // an `Exception`: the request record, then an error record with `str(e)`
    ensures r.Failure? && r.error.IsException() ==> log.records == old(log.records) + [
      Record(InfoLevel, ChatCompletionRequest(Messages(args), requestTime)),
      Record(ErrorLevel, ChatCompletionError(r.error.message, outcomeTime))]
    // a `BaseException` that `except Exception` lets through: the request record only
    ensures r.Failure? && !r.error.IsException() ==> log.records == old(log.records) + [
      Record(InfoLevel, ChatCompletionRequest(Messages(args), requestTime))]
  {
    log.Info(ChatCompletionRequest(Messages(args), requestTime));
    r := func(args);
    match r
    case Success(response) =>
      log.Info(ChatCompletionResponse(response, outcomeTime));
    case Failure(e) =>
      if e.IsException() {
        log.Error(ChatCompletionError(e.message, outcomeTime));
      }
  }
}
