/**
 * The `logger` class of hrai_python/hrai_logger.py. Its `readable` decorator
 * swaps the httpx client inside an OpenAI client object (`_client`) for one
 * that carries a request hook, runs the wrapped call, puts the saved client
 * back, records `log_data`, forwards it to the remote log sink (inline or
 * through the executor) and shapes the result by `Return_Type`.
 *
 * The wrapped call, `requests.post` and the clock are parameters: the call
 * as a function from its arguments to what it did, including the requests
 * that passed through the hook; the post as its outcome.
 */
module TransportLogger {
  import opened Wrappers
  import opened Values
  import opened Logging

  const DEFAULT_BASE_URL := "https://api.humanreadable.ai/"
  const DEFAULT_LOG_FORMAT := "%(asctime)s - %(levelname)s - %(message)s"
  const DEFAULT_CLIENT_ATTR := "client"

  /** `logger.Return_Type` */
  datatype ReturnType = ContentOnly | Json | OpenAIObject

  /** An `httpx.Client`; `instrumented` marks the one built with the request hook. */
  class HttpxClient {
    const instrumented: bool

    constructor(instrumented: bool)
      ensures this.instrumented == instrumented
    {
      this.instrumented := instrumented;
    }
  }

  /** An OpenAI client object; `httpClient` is its `_client` field. */
  class ApiClient {
    var httpClient: HttpxClient

    constructor(httpClient: HttpxClient)
      ensures this.httpClient == httpClient
    {
      this.httpClient := httpClient;
    }
  }

  /** The object the decorated method is called on, as its client-valued attributes. */
  class Instance {
    var attributes: map<string, ApiClient>

    constructor(attributes: map<string, ApiClient>)
      ensures this.attributes == attributes
    {
      this.attributes := attributes;
    }
  }

  /**
   * What the wrapped call did: returned or raised, after sending `requests`
   * through the installed httpx client, each of which fired the hook.
   */
  datatype CallOutcome =
    | Returned(result: Value, requests: seq<HttpRequest>)
    | Raised(error: Exception, requests: seq<HttpRequest>)

  /** What `requests.post` did: answered with a status, or raised. */
  datatype PostOutcome = Responded(status: int) | PostFailed(error: Exception)

  /** One `requests.post(url, json=body, headers=headers)`. */
  datatype RemotePost = RemotePost(url: string, body: LogData, headers: map<string, string>)

  /** Python truthiness of an optional string. */
  predicate Truthy(s: Option<string>)
  {
    s.Some? && s.value != ""
  }

  /** `s or default` */
  function OrElse(s: Option<string>, default: string): string
  {
    if Truthy(s) then s.value else default
  }

  /** The headers of the remote post. */
  function AuthHeaders(apikey: Option<string>): map<string, string>
  {
    if Truthy(apikey) then map["Authorization" := "Bearer " + apikey.value] else map[]
  }

  /** The records `log_remote` writes once it has posted. */
  function PostRecords(post: PostOutcome): seq<Record>
  {
    match post
    case Responded(status) =>
      if 400 <= status < 600 then [Record(ErrorLevel, RemoteLogFailed(HttpStatus(status)))]
      else [Record(InfoLevel, RemoteLogSent)]
    case PostFailed(e) =>
      if e.cls == RequestException then [Record(ErrorLevel, RemoteLogFailed(PostRaised(e)))] else []
  }

  /** The exception that leaves `log_remote`: one that is no `RequestException`. */
  function Escaped(post: PostOutcome): Option<Exception>
  {
    if post.PostFailed? && post.error.cls != RequestException then Some(post.error) else None
  }

  /** A failed delivery is logged and contained; only a foreign exception escapes. */
  lemma PostFailureContained(post: PostOutcome)
    ensures post.Responded? ==> Escaped(post) == None && |PostRecords(post)| == 1
    ensures post.Responded? && 400 <= post.status < 600 ==>
      PostRecords(post) == [Record(ErrorLevel, RemoteLogFailed(HttpStatus(post.status)))]
    ensures post.Responded? && !(400 <= post.status < 600) ==>
      PostRecords(post) == [Record(InfoLevel, RemoteLogSent)]
    ensures post.PostFailed? && post.error.cls == RequestException ==>
      Escaped(post) == None && PostRecords(post) == [Record(ErrorLevel, RemoteLogFailed(PostRaised(post.error)))]
  {
  }

  /**
   * Whether `json.dumps` accepts a result: None, a string, or an object of
   * a JSON type. A ChatCompletion is not JSON serializable.
   */
  predicate JsonSerialisable(v: Value)
  {
    v.NoneValue? || v.Str? || (v.Object? && v.serialisable)
  }

  /**
   * What `requests.post(url, json=data, ...)` does: it serialises `data`
   * before sending anything, so a body that `json.dumps` refuses raises
   * `TypeError` and `post`, the outcome of the HTTP exchange, never happens.
   */
  function Delivery(data: LogData, post: PostOutcome): PostOutcome
  {
    if JsonSerialisable(data.responseContent) then post
    else PostFailed(Exception(TypeError, "Object is not JSON serializable"))
  }

  /**
   * A serialisable `log_data` is delivered as the exchange goes; one holding
   * a ChatCompletion makes `log_remote` raise a `TypeError`, logging nothing.
   */
  lemma DeliveryCases(data: LogData, post: PostOutcome)
    ensures JsonSerialisable(data.responseContent) ==> Delivery(data, post) == post
    ensures data.responseContent.Completion? ==>
      && Escaped(Delivery(data, post)).Some?
      && Escaped(Delivery(data, post)).value.cls == TypeError
      && PostRecords(Delivery(data, post)) == []
  {
  }

  const REQUEST_KEYS: set<string> := {"method", "url", "content"}

  /** The three entries the hook writes for a request. */
  function RequestFields(request: HttpRequest): map<string, string>
  {
    map["method" := request.verb, "url" := request.url, "content" := request.content]
  }

  /** `on_request`'s in-place update of `request_info`. */
  function OnRequest(info: map<string, string>, request: HttpRequest): map<string, string>
  {
    info["method" := request.verb]["url" := request.url]["content" := request.content]
  }

  /** `request_info` after the hook has fired for each request in turn, starting from `{}`. */
  function CapturedInfo(requests: seq<HttpRequest>): map<string, string>
  {
    if requests == [] then map[]
    else OnRequest(CapturedInfo(requests[..|requests| - 1]), requests[|requests| - 1])
  }

  /** The records the hook writes, one per request. */
  function HookRecords(requests: seq<HttpRequest>): seq<Record>
  {
    seq(|requests|, i requires 0 <= i < |requests| => Record(InfoLevel, HttpRequestCaptured(requests[i])))
  }

  lemma OnRequestOverwrites(info: map<string, string>, request: HttpRequest)
    requires info.Keys <= REQUEST_KEYS
    ensures OnRequest(info, request) == RequestFields(request)
  {
  }

  /**
   * `request_info` stays `{}` when no request passed through the hook, and
   * otherwise holds the method, URL and body of the last one.
   */
  lemma {:induction false} CapturedInfoIsLast(requests: seq<HttpRequest>)
    ensures requests == [] ==> CapturedInfo(requests) == map[]
    ensures requests != [] ==> CapturedInfo(requests) == RequestFields(requests[|requests| - 1])
  {
    if requests != [] {
      var init := requests[..|requests| - 1];
      CapturedInfoIsLast(init);
      OnRequestOverwrites(CapturedInfo(init), requests[|requests| - 1]);
    }
  }

  /** `log_data` for a call that returned. */
  function LogDataOf(outcome: CallOutcome, timestamp: string): LogData
    requires outcome.Returned?
  {
    LogData(CapturedInfo(outcome.requests), outcome.result, timestamp)
  }

  /** `result.choices[0].message.content` as a Python value. */
  function ContentValue(content: Option<string>): Value
  {
    match content
    case None => NoneValue
    case Some(s) => Str(s)
  }

  /**
   * The tail of the wrapper: only an object whose type is exactly
   * ChatCompletion is shaped; anything else makes the wrapper return None.
   */
  function Shape(returnType: ReturnType, result: Value): (r: Result<Value, Exception>)
    ensures !result.Completion? ==> r == Success(NoneValue)
    ensures r.Failure? <==> result.Completion? && returnType == ContentOnly && result.completion.choices == []
    ensures r.Failure? ==> r.error.cls == IndexError
    ensures r.Success? && r.value.Completion? ==> returnType == OpenAIObject && r.value == result
    ensures returnType != OpenAIObject && r.Success? ==> r.value.Str? || r.value.NoneValue?
  {
    match result
    case Completion(c) =>
      (match returnType
       case ContentOnly =>
         if c.choices == [] then Failure(Exception(IndexError, "list index out of range"))
         else Success(ContentValue(c.choices[0].message.content))
       case Json => Success(Str(c.json))
       case OpenAIObject => Success(result))
    case _ => Success(NoneValue)
  }

  /** What each return type makes of a ChatCompletion. */
  lemma ShapeCompletion(returnType: ReturnType, c: ChatCompletion)
    ensures returnType == ContentOnly && c.choices != [] ==>
      Shape(returnType, Completion(c)) == Success(ContentValue(c.choices[0].message.content))
    ensures returnType == Json ==> Shape(returnType, Completion(c)) == Success(Str(c.json))
    ensures returnType == OpenAIObject ==> Shape(returnType, Completion(c)) == Success(Completion(c))
  {
  }

  class Logger {
    const clientInstance: ApiClient?
    const clientAttrName: Option<string>
    const baseUrl: string
    const apikey: Option<string>
    const logFile: string
    const logLevel: string
    const logFormat: string
    const enableRemote: bool
    const enableAsync: bool
    const returnType: ReturnType
    /** the process-wide log stream */
    const log: LogStream
    /** every `requests.post` the wrapper issues inline through `log_remote`, in order; posts run later by the executor are not recorded */
    var posts: seq<RemotePost>
    /** every `log_data` handed to the executor, in order of submission */
    var submitted: seq<LogData>

    /**
     * `logger(...)`, with the same defaults; `envApiKey` is what
     * `os.getenv("HRAI_API_KEY")` returns.
     */
    constructor(log: LogStream, envApiKey: Option<string>,
                clientInstance: ApiClient? := null,
                clientAttrName: Option<string> := Some(DEFAULT_CLIENT_ATTR),
                baseUrl: Option<string> := None,
                apikey: Option<string> := None,
                logFile: string := "hrai.log",
                logLevel: string := "INFO",
                logFormat: Option<string> := None,
                enableRemote: bool := true,
                enableAsync: bool := false,
                returnType: ReturnType := ContentOnly)
      modifies log
      ensures this.baseUrl == OrElse(baseUrl, DEFAULT_BASE_URL)
      ensures this.apikey == if Truthy(apikey) then apikey else envApiKey
      ensures this.logFile == logFile && this.logLevel == logLevel
      ensures this.logFormat == OrElse(logFormat, DEFAULT_LOG_FORMAT)
      ensures this.enableRemote == enableRemote && this.enableAsync == enableAsync
      ensures this.clientInstance == clientInstance && this.clientAttrName == clientAttrName
      ensures this.returnType == returnType
      ensures this.log == log && posts == [] && submitted == []
      ensures log.records == old(log.records) + [Record(InfoLevel, LoggingConfigured(logLevel))]
    {
      this.baseUrl := OrElse(baseUrl, DEFAULT_BASE_URL);
      this.apikey := if Truthy(apikey) then apikey else envApiKey;
      this.logFile := logFile;
      this.logFormat := OrElse(logFormat, DEFAULT_LOG_FORMAT);
      this.logLevel := logLevel;
      this.enableRemote := enableRemote;
      this.enableAsync := enableAsync;
      this.clientInstance := clientInstance;
      this.clientAttrName := clientAttrName;
      this.returnType := returnType;
      this.log := log;
      posts := [];
      submitted := [];
      new;
      log.Info(LoggingConfigured(logLevel));
    }

    /** `log_remote` posts only when remote logging is on and the base URL is exactly the default. */
    predicate PostsRemotely()
    {
      enableRemote && baseUrl == DEFAULT_BASE_URL
    }

    /** The wrapper calls `log_remote` itself, and that posts. */
    predicate SendsInline()
    {
      enableRemote && !enableAsync && PostsRemotely()
    }

    /** `f"{self.base_url}/logs"` */
    function RemoteUrl(): string
    {
      baseUrl + "/logs"
    }

    /** Whenever anything is posted, it goes to the default sink's `/logs`, after a doubled slash. */
    lemma PostedUrl()
      requires PostsRemotely()
      ensures RemoteUrl() == "https://api.humanreadable.ai//logs"
    {
    }

    /**
     * `log_remote(log_data)`: calls `requests.post` with `data` when
     * `PostsRemotely()`, logs the delivery or its failure, and returns the
     * exception that escapes the `except RequestException` clause, if any.
     * `posts` records the call even when serialising `data` fails.
     */
    method LogRemote(data: LogData, post: PostOutcome) returns (escaped: Option<Exception>)
      modifies this`posts, log
      ensures !PostsRemotely() ==> posts == old(posts) && log.records == old(log.records) && escaped == None
      ensures PostsRemotely() ==>
        && posts == old(posts) + [RemotePost(RemoteUrl(), data, AuthHeaders(apikey))]
        && log.records == old(log.records) + PostRecords(Delivery(data, post))
        && escaped == Escaped(Delivery(data, post))
    {
      escaped := None;
      if !enableRemote {
        return;
      }
      if baseUrl == DEFAULT_BASE_URL {
        var headers := AuthHeaders(apikey);
        posts := posts + [RemotePost(baseUrl + "/logs", data, headers)];
        match Delivery(data, post)
        case Responded(status) =>
          if 400 <= status < 600 {
            log.Error(RemoteLogFailed(HttpStatus(status)));
          } else {
            log.Info(RemoteLogSent);
          }
        case PostFailed(e) =>
          if e.cls == RequestException {
            log.Error(RemoteLogFailed(PostRaised(e)));
          } else {
            escaped := Some(e);
          }
      }
    }

    /** `log_remote_async(log_data)`: submission only; when and whether it runs is not modelled. */
    method LogRemoteAsync(data: LogData)
      modifies this`submitted
      ensures submitted == old(submitted) + [data]
    {
      submitted := submitted + [data];
    }

    /** The client whose `_client` the wrapper saves: `client_instance`, else `getattr(instance, client_attr_name)`. */
    function ResolveClient(instance: Instance): Result<ApiClient, Exception>
      reads instance
    {
      if clientInstance != null then Success(clientInstance)
      else
        match clientAttrName
        case None => Failure(Exception(TypeError, "attribute name must be string"))
        case Some(name) =>
          if name in instance.attributes then Success(instance.attributes[name])
          else Failure(Exception(AttributeError, "object has no attribute '" + name + "'"))
    }

    /**
     * The hook `on_request` firing once per request the wrapped call sent:
     * each logs the request and overwrites `request_info`.
     */
    method OnRequests(requests: seq<HttpRequest>) returns (requestInfo: map<string, string>)
      modifies log
      ensures requestInfo == CapturedInfo(requests)
      ensures log.records == old(log.records) + HookRecords(requests)
    {
      requestInfo := map[];
      var i := 0;
      while i < |requests|
        invariant 0 <= i <= |requests|
        invariant requestInfo == CapturedInfo(requests[..i])
        invariant log.records == old(log.records) + HookRecords(requests[..i])
      {
        var request := requests[i];
        log.Info(HttpRequestCaptured(request));
        assert requests[..i + 1][..i] == requests[..i];
        requestInfo := OnRequest(requestInfo, request);
        assert HookRecords(requests[..i + 1])
            == HookRecords(requests[..i]) + [Record(InfoLevel, HttpRequestCaptured(request))];
        i := i + 1;
      }
      assert requests[..i] == requests;
    }

    /** Sends the remote copy when remote logging is on: inline by `log_remote`, or by `log_remote_async`. */
    method Dispatch(data: LogData, post: PostOutcome) returns (escaped: Option<Exception>)
      modifies this`posts, this`submitted, log
      ensures posts == old(posts) +
        (if SendsInline() then [RemotePost(RemoteUrl(), data, AuthHeaders(apikey))] else [])
      ensures submitted == old(submitted) + (if enableRemote && enableAsync then [data] else [])
      ensures log.records == old(log.records) +
        (if SendsInline() then PostRecords(Delivery(data, post)) else [])
      ensures escaped == if SendsInline() then Escaped(Delivery(data, post)) else None
    {
      escaped := None;
      if enableRemote == true {
        if enableAsync {
          LogRemoteAsync(data);
        } else {
          escaped := LogRemote(data, post);
        }
      }
    }

    /** The client the wrapper writes `_client` on: `instance.client`. */
    function ClientSlot(instance: Instance): set<ApiClient>
      reads instance
    {
      if DEFAULT_CLIENT_ATTR in instance.attributes then {instance.attributes[DEFAULT_CLIENT_ATTR]} else {}
    }

    /** Whether the wrapper gets as far as installing the hooked client. */
    predicate Installs(instance: Instance)
      reads instance
    {
      ResolveClient(instance).Success? && DEFAULT_CLIENT_ATTR in instance.attributes
    }

    /** The wrapper's result once the hooked client was installed. */
    function WrapperResult(outcome: CallOutcome, timestamp: string, post: PostOutcome): Result<Value, Exception>
    {
      if outcome.Raised? then Failure(outcome.error)
      else if SendsInline() && Escaped(Delivery(LogDataOf(outcome, timestamp), post)).Some? then
        Failure(Escaped(Delivery(LogDataOf(outcome, timestamp), post)).value)
      else Shape(returnType, outcome.result)
    }

    /**
     * When the wrapper posts inline (the default settings), a call that
     * returns a ChatCompletion makes the wrapper raise `TypeError`: the
     * result cannot be serialised into the remote post, so no shaping happens.
     */
    lemma InlinePostRaisesOnCompletion(outcome: CallOutcome, timestamp: string, post: PostOutcome)
      requires SendsInline() && outcome.Returned? && outcome.result.Completion?
      ensures WrapperResult(outcome, timestamp, post).Failure?
      ensures WrapperResult(outcome, timestamp, post).error.cls == TypeError
    {
      DeliveryCases(LogDataOf(outcome, timestamp), post);
    }

    /**
     * Shaping is what the caller gets from a returned call when the wrapper
     * does not post inline (remote off, async on, or another base URL).
     */
    lemma ShapedWithoutInlinePost(outcome: CallOutcome, timestamp: string, post: PostOutcome)
      requires !SendsInline() && outcome.Returned?
      ensures WrapperResult(outcome, timestamp, post) == Shape(returnType, outcome.result)
    {
    }

    /**
     * `wrapper(instance, *args, **kwargs)` for `func`. `func` gets, besides
     * its arguments, the httpx client it finds in `instance.client._client`
     * when it runs; `installed` is that client (null when `func` never ran).
     */
    method Readable(instance: Instance, func: (Args, HttpxClient) -> CallOutcome, args: Args, timestamp: string,
                    post: PostOutcome)
      returns (r: Result<Value, Exception>, ghost installed: HttpxClient?)
      modifies ClientSlot(instance), this`posts, this`submitted, log
      // getattr fails, or `instance.client` is missing: nothing has changed
      ensures ResolveClient(instance).Failure? ==> r == Failure(ResolveClient(instance).error)
      ensures ResolveClient(instance).Success? && DEFAULT_CLIENT_ATTR !in instance.attributes ==>
        r == Failure(Exception(AttributeError, "object has no attribute 'client'"))
      ensures !Installs(instance) ==>
        installed == null && posts == old(posts) && submitted == old(submitted) && log.records == old(log.records)
      ensures !Installs(instance) ==> unchanged(ClientSlot(instance))
      // the call ran with a fresh hooked client in place
      ensures Installs(instance) ==> installed != null && fresh(installed) && installed.instrumented
      // on every path out, `instance.client._client` is the value read from the resolved client
      ensures Installs(instance) ==>
        instance.attributes[DEFAULT_CLIENT_ATTR].httpClient == old(ResolveClient(instance).value.httpClient)
      ensures Installs(instance) && ResolveClient(instance).value != instance.attributes[DEFAULT_CLIENT_ATTR] ==>
        ResolveClient(instance).value.httpClient == old(ResolveClient(instance).value.httpClient)
      // remote dispatch only after a call that returned
      ensures Installs(instance) ==>
        var outcome := func(args, installed);
        && posts == old(posts) +
             (if outcome.Returned? && SendsInline()
              then [RemotePost(RemoteUrl(), LogDataOf(outcome, timestamp), AuthHeaders(apikey))] else [])
        && submitted == old(submitted) +
             (if outcome.Returned? && enableRemote && enableAsync then [LogDataOf(outcome, timestamp)] else [])
        && r == WrapperResult(outcome, timestamp, post)
      ensures Installs(instance) ==>
        var outcome := func(args, installed);
        log.records == old(log.records) + HookRecords(outcome.requests) +
          (if outcome.Raised? then []
           else
             [Record(InfoLevel, ResultType(outcome.result))] +
             (if SendsInline() then PostRecords(Delivery(LogDataOf(outcome, timestamp), post)) else []) +
             (if SendsInline() && Escaped(Delivery(LogDataOf(outcome, timestamp), post)).Some? then []
              else [Record(InfoLevel, LogRecorded(LogDataOf(outcome, timestamp)))]))
    {
      installed := null;
      var resolved := ResolveClient(instance);
      if resolved.Failure? {
        return Failure(resolved.error), null;
      }
      var client := resolved.value;
      var original := client.httpClient;
      var hooked := new HttpxClient(true);
      if DEFAULT_CLIENT_ATTR !in instance.attributes {
        return Failure(Exception(AttributeError, "object has no attribute 'client'")), null;
      }
      var target := instance.attributes[DEFAULT_CLIENT_ATTR];
      target.httpClient := hooked;
      installed := hooked;

      var outcome := func(args, target.httpClient);
      var requestInfo := OnRequests(outcome.requests);

      if outcome.Raised? {
        target.httpClient := original;
        return Failure(outcome.error), installed;
      }
      var result := outcome.result;
      log.Info(ResultType(result));
      var logData := LogData(requestInfo, result, timestamp);
      var escaped := Dispatch(logData, post);
      if escaped.Some? {
        target.httpClient := original;
        return Failure(escaped.value), installed;
      }
      log.Info(LogRecorded(logData));
      target.httpClient := original;
      r := Shape(returnType, result);
    }
  }
}
