# hrai_python in Dafny

This project models the two parts of the `hrai_python` package that hold logic.

- **Helpers in `gpt_utils`.**
  - `create_tool` builds an OpenAI "function tool" schema from a name, a description and an ordered map of properties.
  - `create_prompt` fills the `{name}` fields of a template from a map of inputs. When a value is missing it raises a `ValueError` that names the key.
- **The two `readable` decorators.**
  - The simple one in `hrai_python/__init__.py` logs the request's messages, calls the wrapped function, logs the response or the error, and hands back the outcome unchanged.
  - The one on the `logger` class in `hrai_python/hrai_logger.py`:
    - swaps the `_client` httpx client of an OpenAI client for one carrying a request hook;
    - runs the call and restores the saved client on every exit path;
    - logs `log_data` and forwards it to the remote sink;
    - shapes the result by `Return_Type`.

## Files

| file | contents |
|---|---|
| `wrappers.dfy` | `Option` and `Result` |
| `values.dfy` | Python values seen by the loggers, exceptions, arguments, HTTP requests, `log_data` |
| `logging.dfy` | the process-wide log stream: a `LogStream` class whose `records` grow by one per `logging.info`/`logging.error` |
| `gpt_utils.dfy` | `create_tool`, `create_prompt`, and the fragment of `str.format` they rely on |
| `simple_logger.dfy` | `hrai_logger.readable` of `hrai_python/__init__.py` |
| `transport_logger.dfy` | the `logger` class of `hrai_python/hrai_logger.py` |

## Modelling choices

- **Dictionaries.** A Python dict whose order is visible is a `seq` of key/value pairs in insertion order, and lookup is the first match. `Dict`, `Keys` and `Get` in `GptUtils` implement these. The inputs of `create_prompt` are a `map`, since only membership and lookup matter there.
- **`str.format` grammar.**
  - The model supports only plain named fields `{identifier}`. An identifier is ASCII letters, digits and `_`, and does not start with a digit. Everything else is literal text without braces.
  - Any other use of a brace falls outside this grammar. That covers `{{`, `}}`, format specs, conversions, positional or indexed fields, and unmatched braces. `Format` reports such a template as `OutsideGrammar`, and `CreatePrompt` as `UnsupportedTemplate`.
  - `Format` scans left to right, as CPython does. The first field without a value therefore raises `KeyError`, even when an unsupported construct comes later.
  - `Parse`/`Unparse` is the grammar as data, and `Expand` is the reference semantics for it.
- **The error message.** `str(KeyError(k))` is the repr of `k`: `'k'` for an identifier. `Strip` is `str.strip("'")`.
- **Effects become parameters.**
  - The wrapped call is a function from its arguments to its outcome. For the transport logger, it also receives the httpx client it finds in `instance.client._client` when it runs, and its outcome includes the requests it sent through that client.
  - Clock readings are timestamp parameters.
  - `os.getenv("HRAI_API_KEY")` is the constructor's `envApiKey` parameter.
  - What the HTTP exchange of `requests.post(...).raise_for_status()` does is a `PostOutcome` parameter: a status code, or a raised exception. Serialising the body comes first. It is modelled: `JsonSerialisable` accepts None, strings and the objects marked serialisable (a dict, list, number or bool), and refuses a ChatCompletion. `Delivery` turns a refused result into a `TypeError`.
- **Exceptions.**
  - Only a `RequestException` is caught by `log_remote`.
  - `raise_for_status` raises for a status from 400 up to 599.
  - `except Exception` does not catch a `BaseException` that is not an `Exception`. `Exception.IsException` tells them apart.
- **Clients as objects.** `ApiClient` is an OpenAI client object, and `httpClient` is its `_client` field. `Instance` is the object the decorated method is called on, given as its client-valued attributes. The wrapper writes through `instance.client`, so `ClientSlot` is exactly what `Readable` may modify.
- **Log records.** Log levels are not filtered. One record stands for each logging call, except that the five `logging.info` lines of the hook for one request are one `HttpRequestCaptured` record.

### Three consequences of the code

- **Restoration goes through `instance.client`.**
  - The wrapper reads `_client` from the resolved client (`hrai_python/hrai_logger.py:83-88`). That client is `client_instance`, or else the attribute named `client_attr_name`.
  - It installs the hooked client on `instance.client._client` and restores it there (`:94`, `:113`).
  - So the value written back is the resolved client's, not `instance.client`'s own. When the two objects differ, the resolved client is never touched, and `instance.client` ends up with the other client's httpx client.
  - `Logger.Readable` states exactly this.
- **Results other than a ChatCompletion become None.**
  - Only a result whose type is exactly ChatCompletion is shaped. For anything else, `wrapper` falls off its end and returns `None` (`hrai_python/hrai_logger.py:114-120`).
  - `Shape` returns `NoneValue`.
- **An inline post of a ChatCompletion raises.**
  - `requests.post(..., json=log_data)` serialises `log_data` with `json.dumps` before sending anything (`hrai_python/hrai_logger.py:61`).
  - `log_data` holds the result object itself (`:98-104`), and `json.dumps` raises `TypeError` on a ChatCompletion. `TypeError` is not a `RequestException`, so it escapes `log_remote` and the wrapper.
  - So with remote logging on, async off and the default base URL (the constructor defaults), a decorated call that returns a ChatCompletion raises `TypeError`. The `Return_Type` shaping is reached only when the wrapper does not post inline.
  - `Delivery` and `JsonSerialisable` model this, and `Logger.InlinePostRaisesOnCompletion` and `Logger.ShapedWithoutInlinePost` state it.

## Model

| member | source | states |
|---|---|---|
| GptUtils.CreateToolFixedFields | hrai_python/__init__.py:33-44 | the tool's type is "function" and its parameters' type is "object"; name and description are copied verbatim |
| GptUtils.PropertySchemasGet | hrai_python/__init__.py:23-29 | looking a key up in the built properties gives `{"type": "string", "description": d}` exactly when the input maps it to `d`, and nothing when the input lacks it |
| GptUtils.CreateToolProperties | hrai_python/__init__.py:23-29 | the tool's properties have exactly the input's keys in the same order, and each key maps to a string schema carrying the input description |
| GptUtils.CreateToolDistinctKeys | hrai_python/__init__.py:23-29 | distinct input keys give distinct property keys |
| GptUtils.KeysGet | hrai_python/__init__.py:31 | a name is among `list(properties.keys())` exactly when the dict has an entry for it |
| GptUtils.CreateToolDefaultRequired | hrai_python/__init__.py:31 | without `require`, the required list is the property keys in insertion order, so a name is required exactly when it is a property |
| GptUtils.CreateToolGivenRequired | hrai_python/__init__.py:31 | a given `require` list is used exactly as given |
| GptUtils.CreateToolRequiredNotChecked | hrai_python/__init__.py:31 | for every tool, a name in the given `require` that is no property stays in `required` and still has no property schema; `require` is neither filtered nor checked |
| GptUtils.CreateToolAllRequiredTest | hrai_python/tests/tests.py:12-27 | the all-required test: name, description, both properties present, required is `["answer", "request"]` |
| GptUtils.CreateToolCustomRequiredTest | hrai_python/tests/tests.py:29-41 | the custom-required test: required is `["answer"]` |
| GptUtils.NamePrefix | hrai_python/__init__.py:54 | the longest prefix made of identifier characters: a prefix of the input, all name characters, followed by a non-name character or the end |
| GptUtils.NextToken | hrai_python/__init__.py:54 | the next token of the template: the end exactly for the empty template, a brace-free character, or a whole `{identifier}` field, each followed by the rest of the template |
| GptUtils.Parse | hrai_python/__init__.py:54 | a template accepted by the grammar parses to valid segments that unparse to that template |
| GptUtils.ParseUnparse | hrai_python/__init__.py:54 | parsing the text of any valid segment list gives back that list, so the grammar is unambiguous |
| GptUtils.FormatUnparse | hrai_python/__init__.py:54 | on a template in the grammar, `Format` agrees with the reference expansion of its segments |
| GptUtils.FormatInGrammar | hrai_python/__init__.py:54 | the same for any template that parses |
| GptUtils.FormatSuccessInGrammar | hrai_python/__init__.py:54 | formatting succeeds only on templates in the grammar |
| GptUtils.FormatKeyErrorIsIdentifier | hrai_python/__init__.py:54-55 | a `KeyError` names an identifier that has no value in the inputs |
| GptUtils.FormatNoBraces | hrai_python/__init__.py:54 | brace-free text formats to itself with any inputs |
| GptUtils.FormatLiteralPrefix | hrai_python/__init__.py:54 | a brace-free prefix is copied in front of the result or leaves the error unchanged |
| GptUtils.FormatOutputNoBraces | hrai_python/__init__.py:54 | with brace-free values, a formatted prompt has no braces |
| GptUtils.FormatOneField | hrai_python/__init__.py:54 | a template with one field between brace-free texts becomes prefix, value, suffix; or it raises a `KeyError` for that field |
| GptUtils.FirstMissing | hrai_python/__init__.py:55-56 | the reported key has no value, and every field before it does |
| GptUtils.StripKeyErrorStr | hrai_python/__init__.py:56 | stripping quotes from `str(KeyError(k))` gives `k` back for an identifier `k` |
| GptUtils.CreatePromptNamesMissingKey | hrai_python/__init__.py:55-57 | a `KeyError` for `k` becomes the `ValueError` "Missing value for placeholder: 'k' in inputs." |
| GptUtils.CreatePromptInGrammar | hrai_python/__init__.py:52-59 | with all field values present, the prompt is the template with each field replaced; otherwise the `ValueError` names the leftmost missing field and no prompt is returned |
| GptUtils.CreatePromptSuccessInGrammar | hrai_python/__init__.py:52-59 | a prompt is returned only for a template in the grammar |
| GptUtils.CreatePromptIdempotent | hrai_python/__init__.py:52-59 | with brace-free values, prompting again on a produced prompt gives it back unchanged |
| GptUtils.CreatePromptCapitalTest | hrai_python/tests/tests.py:43-50 | "What is the capital of {country}?" with country=France gives "What is the capital of France?" |
| GptUtils.CreatePromptMissingInputTest | hrai_python/tests/tests.py:52-57 | the same template with only `city` raises "Missing value for placeholder: 'country' in inputs." |
| Logging.LogStream.Info | hrai_python/__init__.py:78-82 | a `logging.info` appends one INFO record and changes nothing else |
| Logging.LogStream.Error | hrai_python/__init__.py:95-99 | a `logging.error` appends one ERROR record and changes nothing else |
| SimpleLogger.MessagesChoice | hrai_python/__init__.py:75 | the logged messages are the `messages` keyword if given, else the first positional argument, else None |
| SimpleLogger.Readable | hrai_python/__init__.py:72-100 | the caller gets exactly the wrapped call's result or exception. A returning call adds two records: the request, then the response. An `Exception` adds the request record, then an error record carrying `str(e)`. A `BaseException` that is not an `Exception` adds only the request record |
| TransportLogger.PostFailureContained | hrai_python/hrai_logger.py:60-65 | an HTTP error status or a `RequestException` is logged as a failure and does not propagate; any other status logs exactly the "sent successfully" record |
| TransportLogger.DeliveryCases | hrai_python/hrai_logger.py:61-65 | a serialisable `log_data` is delivered as the HTTP exchange goes; one holding a ChatCompletion makes `log_remote` raise a `TypeError` and log nothing |
| TransportLogger.CapturedInfoIsLast | hrai_python/hrai_logger.py:73-82 | `request_info` stays `{}` when no request was sent, and otherwise holds the method, URL and content of the last request |
| TransportLogger.Shape | hrai_python/hrai_logger.py:114-120 | a result that is not a ChatCompletion gives None; the only failure is `content_only` on empty choices (IndexError); the structured object comes back only under `openai_object`; otherwise a string or None |
| TransportLogger.ShapeCompletion | hrai_python/hrai_logger.py:114-119 | the first choice's message content under `content_only`, `to_json()` under `json`, the object itself under `openai_object` |
| TransportLogger.Logger.constructor | hrai_python/hrai_logger.py:17-39 | the constructor defaults: the default base URL and log format when those are falsy, the API key from the environment when it is falsy, the other settings as given; one "logging configured" record |
| TransportLogger.Logger.PostedUrl | hrai_python/hrai_logger.py:58-61 | whenever a post happens it goes to `https://api.humanreadable.ai//logs` |
| TransportLogger.Logger.LogRemote | hrai_python/hrai_logger.py:54-65 | no post and no record unless remote logging is on and the base URL is exactly the default. Otherwise there is one post to `base_url + "/logs"`, with an `Authorization: Bearer <apikey>` header exactly when the key is truthy and no headers otherwise. The delivery's records follow, and only a non-`RequestException` escapes |
| TransportLogger.Logger.LogRemoteAsync | hrai_python/hrai_logger.py:67-68 | `log_data` is appended to the submitted jobs |
| TransportLogger.Logger.OnRequests | hrai_python/hrai_logger.py:74-82 | one capture record per request, in order, with `request_info` as captured from the last one |
| TransportLogger.Logger.Dispatch | hrai_python/hrai_logger.py:105-109 | submission when remote and async are both on; an inline `log_remote` when only remote is on; nothing otherwise |
| TransportLogger.Logger.InlinePostRaisesOnCompletion | hrai_python/hrai_logger.py:98-110 | when the wrapper posts inline, a call returning a ChatCompletion makes the wrapper raise `TypeError` instead of shaping the result |
| TransportLogger.Logger.ShapedWithoutInlinePost | hrai_python/hrai_logger.py:105-120 | when the wrapper does not post inline, a returned call's result is shaped by `Return_Type` |
| TransportLogger.Logger.Readable | hrai_python/hrai_logger.py:70-120 | a failed client lookup changes nothing, `instance.client._client` included; otherwise the call is given the fresh hooked client read back from `instance.client._client`, and that field is restored on every exit; dispatch only after a returned call; log, `log_data` and result as listed below |

What `TransportLogger.Logger.Readable` states:

- **When nothing changes.** A failing `getattr` or a missing `instance.client` raises before anything changes. `instance.client._client` is untouched too.
- **The swap.** Otherwise the wrapped call is made with the httpx client read from `instance.client._client` right after the swap. That client is fresh and instrumented (the returned ghost `installed`), and every outcome in the contract is `func(args, installed)`. On every exit, the field holds the value read from the resolved client before the call.
- **Remote dispatch.** It happens only after a call that returned. There is at most one post or one submission.
- **The log.** It gains the capture records, then the result-type record, the delivery's records and the `log_data` record. `log_data` joins the captured request, the result and the timestamp.
- **The result.**
  - A raised error is passed on after restoration.
  - So is an exception escaping `log_remote`, such as the `TypeError` from serialising a ChatCompletion.
  - Otherwise the result is shaped by `Return_Type`.

## Left out

- Logging configuration is left out: `logging.basicConfig`, file and console handlers, formats, level filtering and message text. These are I/O only. Each logging call is one record in `LogStream`.
- What `requests.post` sends and receives, and what an error message reads, are not modelled. They belong to foreign libraries, and the outcome of the HTTP exchange is a parameter. Only which results `json.dumps` refuses is modelled. An object other than a ChatCompletion carries a flag saying whether it is of a JSON type.
- httpx's `HTTPTransport`, `Client` and event-hook machinery are not modelled. The hooked client is a fresh `HttpxClient` marked as instrumented, and the requests that reached the hook are part of the wrapped call's outcome.
- `ThreadPoolExecutor` is not modelled: its two workers, when a submitted `log_remote` runs, and what it logs. This is concurrency. Submission is an append to `submitted`, with no claim about completion or order of execution.
- Concurrent decorated calls that share one client object are not modelled. The model is sequential, so the unguarded race on `_client` does not arise in it.
- `datetime.now().isoformat()`, `os.getenv`, `request.content.decode('utf-8')` and `ChatCompletion.to_json()` are opaque values. They come from the environment or from libraries: timestamp parameters, `envApiKey`, the request fields and `ChatCompletion.json`.
- The full PEP 3101 grammar is not modelled: format specs, `!r`/`!s` conversions, positional, index and attribute fields, and the `{{`/`}}` escapes. Only plain `{identifier}` fields are modelled, and other templates give `OutsideGrammar`/`UnsupportedTemplate`.
- `examples/example.py`, `tests/test_decorator.py` and the integration tests in `hrai_python/tests/tests.py` are not modelled. They are glue, they import modules that do not exist, or they call the live OpenAI API.
- TransportLogger.Logger.Readable: reading `client._client` is assumed to succeed. An OpenAI client without a `_client` attribute is not modelled.
- TransportLogger.Logger.Readable: the wrapped call is a pure function of its arguments and of the httpx client it finds installed. Its own side effects are outside the model.
- TransportLogger.Logger.Readable: the five hook log lines for one request are one `HttpRequestCaptured` record.
- Logging.LogStream.Info and Logging.LogStream.Error: Python's `logging` module is not modelled. These methods only stand in for its record sequence.
