/**
 * The process-wide log stream both decorators write to, as the sequence of
 * records appended to it. Handlers, formats and level filtering are not
 * modelled: every record `logging.info` or `logging.error` is given is kept.
 */
module Logging {
  import opened Values

  datatype Level = InfoLevel | ErrorLevel

  /** Why a remote log was not delivered. */
  datatype PostFailure =
    /** `raise_for_status()` raised `HTTPError` for this status */
    | HttpStatus(code: int)
    /** `requests.post` raised */
    | PostRaised(error: Exception)

  /** What a record says, without its message text. */
  datatype Event =
    // hrai_python/__init__.py, hrai_logger.readable
    | ChatCompletionRequest(messages: Value, timestamp: string)
    | ChatCompletionResponse(response: Value, timestamp: string)
    | ChatCompletionError(error: string, timestamp: string)
    // hrai_python/hrai_logger.py, logger
    | LoggingConfigured(level: string)
    | HttpRequestCaptured(request: HttpRequest)
    | ResultType(result: Value)
    | RemoteLogSent
    | RemoteLogFailed(failure: PostFailure)
    | LogRecorded(data: LogData)

  datatype Record = Record(level: Level, event: Event)

  class LogStream {
    var records: seq<Record>

    constructor()
      ensures records == []
    {
      records := [];
    }

    /** `logging.info(...)` */
    method Info(e: Event)
      modifies this
      ensures records == old(records) + [Record(InfoLevel, e)]
    {
      records := records + [Record(InfoLevel, e)];
    }

    /** `logging.error(...)` */
    method Error(e: Event)
      modifies this
      ensures records == old(records) + [Record(ErrorLevel, e)]
    {
      records := records + [Record(ErrorLevel, e)];
    }
  }
}
