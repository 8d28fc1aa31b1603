/**
 * The Python values that cross the two decorators: the objects a wrapped call
 * returns, the exceptions it raises, its arguments, the HTTP request the
 * instrumented transport observes and the log document built from it.
 * Library objects (a ChatCompletion, an httpx request) are kept to the parts
 * the decorators look at.
 */
module Values {
  import opened Wrappers

  /** `choices[i].message`: the content is `Optional[str]`. */
  datatype ChatMessage = ChatMessage(content: Option<string>)

  datatype Choice = Choice(message: ChatMessage)

  /**
   * An `openai.types.chat.chat_completion.ChatCompletion`. `json` is what its
   * `to_json()` returns; the serialisation itself belongs to the library.
   */
  datatype ChatCompletion = ChatCompletion(choices: seq<Choice>, json: string)

  /** A Python object as far as the decorators distinguish objects. */
  datatype Value =
    | NoneValue
    | Str(s: string)
    /** an object whose type is exactly ChatCompletion */
    | Completion(completion: ChatCompletion)
    /**
     * any other object (a subclass of ChatCompletion included), by identity;
     * `serialisable` says whether `json.dumps` accepts it (a dict, list,
     * number or bool does; an arbitrary object does not)
     */
    | Object(id: nat, serialisable: bool)

  /** The class of a raised exception. */
  datatype ExceptionClass =
    | AttributeError
    | IndexError
    | TypeError
    /** `requests.exceptions.RequestException` or a subclass of it */
    | RequestException
    | OpenAIError
    /** any other subclass of `Exception` */
    | OtherError(name: string)
    /** a `BaseException` that is not an `Exception` (KeyboardInterrupt, SystemExit, ...) */
    | NonException(name: string)

  /** A raised exception; `message` is its `str(e)`. */
  datatype Exception = Exception(cls: ExceptionClass, message: string) {
    /** True when `except Exception` catches it. */
    predicate IsException() {
      !cls.NonException?
    }
  }

  /** The `*args` and `**kwargs` of a call. */
  datatype Args = Args(positional: seq<Value>, keywords: map<string, Value>)

  /**
   * An outbound request as the httpx `request` event hook sees it; `verb` is `request.method`, `url` is
   * `str(request.url)` and `content` the body decoded as UTF-8.
   */
  datatype HttpRequest = HttpRequest(verb: string, url: string, headers: map<string, string>, content: string)

  /** The `log_data` document: `{"request": ..., "response": {"content": ...}, "timestamp": ...}`. */
  datatype LogData = LogData(request: map<string, string>, responseContent: Value, timestamp: string)
}
