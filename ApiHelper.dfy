// ApiHelper: the shared HTTP helper behind every API call. Each of GetAsync,
// PostAsync, PutAsync and DeleteAsync builds the request URL once, then runs
// an operation (build the request, send it, check the status, read and
// deserialise the body) under ExecuteWithRetryAsync, which retries transient
// failures with exponential backoff.
//
// The network is a function from (request, attempt number) to what sending
// produced; JSON (de)serialisation and query-string parsing are function
// values; backoff waits are recorded as whole milliseconds instead of slept.

module ApiHelper {
  import opened DotNet

  // ---------------------------------------------------------------- failures

  /** The exception types the retry filter distinguishes. */
  datatype ExceptionType =
    | HttpRequestException
    | TaskCanceledException
    | HttpListenerException
    | InvalidOperationException
    | OtherException(typeName: string)

  datatype Exception = Exception(exceptionType: ExceptionType, message: string)

  /** What one run of the operation did: returned a value or threw. */
  datatype Outcome<+T> = Returned(value: T) | Threw(exception: Exception)

  // ------------------------------------------------------- retry and backoff

  const MaxRetryAttempts: nat := 3
  const BaseDelayMs: nat := 1000

  function Pow2(n: nat): (r: nat)
    ensures r >= 1
  {
    if n == 0 then 1 else 2 * Pow2(n - 1)
  }

  /** The exception test of ShouldRetry: the three transport exception types,
      or any exception whose message contains "timeout" (ordinal, so
      case-sensitive). */
  predicate Retryable(ex: Exception): (retry: bool)
    // the three transport failures are always retried
    ensures ex.exceptionType in {HttpRequestException, TaskCanceledException, HttpListenerException} ==> retry
    // so is any exception, whatever its type, whose message mentions "timeout"
    ensures Contains(ex.message, "timeout") ==> retry
    // and nothing else
    ensures retry ==> ex.exceptionType in {HttpRequestException, TaskCanceledException, HttpListenerException}
                      || Contains(ex.message, "timeout")
  {
    match ex.exceptionType
    case HttpRequestException => true
    case TaskCanceledException => true
    case HttpListenerException => true
    case _ => Contains(ex.message, "timeout")
  }

  /** ShouldRetry: never once MaxRetryAttempts retries have been made. */
  predicate ShouldRetry(ex: Exception, currentAttempt: nat): (retry: bool)
    ensures currentAttempt >= MaxRetryAttempts ==> !retry
    ensures currentAttempt < MaxRetryAttempts ==> (retry <==> Retryable(ex))
  {
    if currentAttempt >= MaxRetryAttempts then false else Retryable(ex)
  }

  /** The backoff before retry number `attempt` (counted from 1):
      BaseDelay * 2^(attempt - 1), in milliseconds. */
  function RetryDelayMs(attempt: nat): (r: nat)
    requires attempt >= 1
    ensures r >= BaseDelayMs
    // the three retries wait 1000, 2000 and 4000 ms
    ensures attempt <= MaxRetryAttempts ==> r == BackoffScheduleMs[attempt - 1]
  {
    BaseDelayMs * Pow2(attempt - 1)
  }

  /** The observable record of one ExecuteWithRetryAsync call: what it
      returned or threw, how many times it ran the operation, and the delays
      it waited between runs. */
  datatype CallTrace<+T> = CallTrace(outcome: Outcome<T>, attempts: nat, delays: seq<nat>)

  /** Reference semantics of ExecuteWithRetryAsync once `attempt` retries have
      been made; `operation(i)` is what run number i (from 0) does. */
  function Retry<T>(operation: nat -> Outcome<T>, attempt: nat): CallTrace<T>
    decreases if attempt <= MaxRetryAttempts then MaxRetryAttempts - attempt else 0
  {
    match operation(attempt)
    case Returned(v) => CallTrace(Returned(v), attempt + 1, [])
    case Threw(ex) =>
      if ShouldRetry(ex, attempt) then
        var rest := Retry(operation, attempt + 1);
        CallTrace(rest.outcome, rest.attempts, [RetryDelayMs(attempt + 1)] + rest.delays)
      else
        CallTrace(Threw(ex), attempt + 1, [])
  }

  /** ExecuteWithRetryAsync: run the operation; on an exception that
      ShouldRetry accepts, count the attempt, wait, and run it again;
      otherwise return or rethrow. */
  method ExecuteWithRetryAsync<T>(operation: nat -> Outcome<T>) returns (trace: CallTrace<T>)
    ensures trace == Retry(operation, 0)
    ensures 1 <= trace.attempts <= MaxRetryAttempts + 1
    ensures trace.outcome == operation(trace.attempts - 1)
  {
    var attempt: nat := 0;
    var delays: seq<nat> := [];
    while true
      invariant attempt <= MaxRetryAttempts
      invariant Retry(operation, 0)
                == var rest := Retry(operation, attempt);
                   CallTrace(rest.outcome, rest.attempts, delays + rest.delays)
      decreases MaxRetryAttempts - attempt
    {
      var outcome := operation(attempt);
      if outcome.Returned? || !ShouldRetry(outcome.exception, attempt) {
        assert Retry(operation, attempt) == CallTrace(outcome, attempt + 1, []);
        return CallTrace(outcome, attempt + 1, delays);
      }
      var rest := Retry(operation, attempt + 1);
      assert Retry(operation, attempt) == CallTrace(rest.outcome, rest.attempts, [RetryDelayMs(attempt + 1)] + rest.delays);
      attempt := attempt + 1;
      var delay := RetryDelayMs(attempt);
      assert delays + Retry(operation, attempt - 1).delays == (delays + [delay]) + rest.delays;
      delays := delays + [delay];
    }
  }

  /** Everything about a retry run started after `k` retries: it stops within
      the retry budget, waits 1000 * 2^j ms before retry j + 1, returns the
      last run's outcome unchanged, every earlier run threw a retryable
      exception, and a thrown outcome is rethrown early only when it is not
      retryable. */
  lemma {:induction false} RetryFrom<T>(operation: nat -> Outcome<T>, k: nat)
    requires k <= MaxRetryAttempts
    ensures var r := Retry(operation, k);
      && k < r.attempts <= MaxRetryAttempts + 1
      && |r.delays| == r.attempts - 1 - k
      && (forall i :: 0 <= i < |r.delays| ==> r.delays[i] == RetryDelayMs(k + 1 + i))
      && r.outcome == operation(r.attempts - 1)
      && (forall j :: k <= j < r.attempts - 1 ==> operation(j).Threw? && Retryable(operation(j).exception))
      && (r.outcome.Threw? && r.attempts <= MaxRetryAttempts ==> !Retryable(r.outcome.exception))
    decreases MaxRetryAttempts - k
  {
    match operation(k)
    case Returned(v) =>
    case Threw(ex) =>
      if ShouldRetry(ex, k) {
        RetryFrom(operation, k + 1);
        var rest := Retry(operation, k + 1);
        var r := Retry(operation, k);
        assert r.delays == [RetryDelayMs(k + 1)] + rest.delays;
        forall i | 0 <= i < |r.delays|
          ensures r.delays[i] == RetryDelayMs(k + 1 + i)
        {
          if i > 0 {
            assert r.delays[i] == rest.delays[i - 1];
          }
        }
      }
  }

  /** The delays of a whole call: 1000, 2000 then 4000 ms, cut off after the
      last retry actually made. */
  const BackoffScheduleMs: seq<nat> := [1000, 2000, 4000]

  /** The complete description of ExecuteWithRetryAsync: the operation runs
      between one and four times (the first call plus MaxRetryAttempts
      retries); the delays are a prefix of 1000, 2000, 4000 ms with one delay
      per retry; the last run's outcome is what the caller sees, unchanged;
      every earlier run threw a retryable exception; and a thrown exception
      propagates before the fourth run only if it is not retryable. */
  lemma RetryContract<T>(operation: nat -> Outcome<T>)
    ensures var r := Retry(operation, 0);
      && 1 <= r.attempts <= 4
      && r.delays == BackoffScheduleMs[..r.attempts - 1]
      && r.outcome == operation(r.attempts - 1)
      && (forall j :: 0 <= j < r.attempts - 1 ==> operation(j).Threw? && Retryable(operation(j).exception))
      && (r.outcome.Threw? && r.attempts < 4 ==> !Retryable(r.outcome.exception))
  {
    RetryFrom(operation, 0);
    var r := Retry(operation, 0);
    assert RetryDelayMs(1) == 1000 && RetryDelayMs(2) == 2000 && RetryDelayMs(3) == 4000;
    assert r.delays == BackoffScheduleMs[..r.attempts - 1];
  }

  /** The delays of any call strictly increase, and there are at most three. */
  lemma DelaysIncrease<T>(operation: nat -> Outcome<T>)
    ensures var d := Retry(operation, 0).delays;
      |d| <= MaxRetryAttempts && forall i, j :: 0 <= i < j < |d| ==> d[i] < d[j]
  {
    RetryContract(operation);
  }

  /** The run count is determined by the outcomes: the call stops at the
      first run that returns or throws a non-retryable exception, or at the
      fourth run, whichever comes first. */
  lemma RetryStopsAtFirstFinalRun<T>(operation: nat -> Outcome<T>, n: nat)
    requires n <= MaxRetryAttempts
    requires forall j :: 0 <= j < n ==> operation(j).Threw? && Retryable(operation(j).exception)
    requires n < MaxRetryAttempts ==> operation(n).Returned? || !Retryable(operation(n).exception)
    ensures Retry(operation, 0) == CallTrace(operation(n), n + 1, BackoffScheduleMs[..n])
  {
    RetryContract(operation);
  }

  /** A first run that returns is the whole call: its value, unchanged, with
      no retry and no delay. */
  lemma FirstSuccessReturnedUnchanged<T>(operation: nat -> Outcome<T>)
    requires operation(0).Returned?
    ensures Retry(operation, 0) == CallTrace(operation(0), 1, [])
  {
    RetryStopsAtFirstFinalRun(operation, 0);
  }

  /** A non-retryable exception propagates on its first occurrence, with no
      delay. */
  lemma NonRetryablePropagatesAtOnce<T>(operation: nat -> Outcome<T>)
    requires operation(0).Threw? && !Retryable(operation(0).exception)
    ensures Retry(operation, 0) == CallTrace(operation(0), 1, [])
  {
    RetryStopsAtFirstFinalRun(operation, 0);
  }

  /** Four retryable failures in a row: the fourth propagates after waits of
      1, 2 and 4 seconds. */
  lemma FourthRetryableFailurePropagates<T>(operation: nat -> Outcome<T>)
    requires forall j :: 0 <= j < 4 ==> operation(j).Threw? && Retryable(operation(j).exception)
    ensures Retry(operation, 0) == CallTrace(operation(3), 4, [1000, 2000, 4000])
  {
    RetryStopsAtFirstFinalRun(operation, 3);
  }

  // --------------------------------------------------------------- requests

  datatype HttpMethod = Get | Post | Put | Delete

  /** The request URI: the base URL verbatim, or the base URL rebuilt by
      UriBuilder with the given query parameters. */
  datatype RequestUri = BaseUrl(url: string) | WithQuery(url: string, query: map<string, string>)

  /** An Authorization header value: a scheme and its parameter. */
  datatype AuthenticationHeaderValue = AuthenticationHeaderValue(scheme: string, parameter: string)
  {
    /** The field value as written on the wire, `<scheme> <parameter>`. */
    function ToString(): (s: string)
      ensures |s| == |scheme| + 1 + |parameter|
      ensures s[..|scheme|] == scheme && s[|scheme|] == ' ' && s[|scheme| + 1..] == parameter
    {
      scheme + " " + parameter
    }
  }

  /** A JSON string body: `new StringContent(json, Encoding.UTF8, "application/json")`. */
  datatype StringContent = StringContent(text: string, charset: string, mediaType: string)

  function JsonContent(json: string): (c: StringContent)
    ensures c.text == json && c.charset == "utf-8" && c.mediaType == "application/json"
  {
    StringContent(json, "utf-8", "application/json")
  }

  /** The parts of an HttpRequestMessage this helper sets. */
  datatype Request = Request(
    verb: HttpMethod,
    uri: RequestUri,
    authorization: Option<AuthenticationHeaderValue>,
    content: Option<StringContent>)

  class HttpRequestMessage {
    const verb: HttpMethod
    const requestUri: RequestUri
    var authorization: Option<AuthenticationHeaderValue>
    var content: Option<StringContent>

    constructor (verb: HttpMethod, requestUri: RequestUri)
      ensures this.verb == verb && this.requestUri == requestUri
      ensures authorization.None? && content.None?
    {
      this.verb := verb;
      this.requestUri := requestUri;
      authorization := None;
      content := None;
    }

    function Snapshot(): (r: Request)
      reads this
      ensures r.verb == verb && r.uri == requestUri
      ensures r.authorization == authorization && r.content == content
    {
      Request(verb, requestUri, authorization, content)
    }
  }

  /** The Authorization header AddBearerTokenIfProvided sets for a token, if
      any: scheme "Bearer" with the token as its credentials (section 2.1 of
      RFC 6750), unless the token is null, empty or white space. */
  function BearerHeader(bearerToken: Option<string>): (h: Option<AuthenticationHeaderValue>)
    ensures h.Some? <==> !IsNullOrWhiteSpace(bearerToken)
    ensures h.Some? ==> h.value.ToString() == "Bearer " + bearerToken.value
  {
    if IsNullOrWhiteSpace(bearerToken) then None
    else Some(AuthenticationHeaderValue("Bearer", bearerToken.value))
  }

  /** AddBearerTokenIfProvided: set the Authorization header for a non-blank
      token; otherwise leave the request as it was. */
  method AddBearerTokenIfProvided(request: HttpRequestMessage, bearerToken: Option<string>)
    modifies request`authorization
    ensures !IsNullOrWhiteSpace(bearerToken)
            ==> request.authorization == Some(AuthenticationHeaderValue("Bearer", bearerToken.value))
    ensures IsNullOrWhiteSpace(bearerToken) ==> request.authorization == old(request.authorization)
  {
    if !IsNullOrWhiteSpace(bearerToken) {
      request.authorization := Some(AuthenticationHeaderValue("Bearer", bearerToken.value));
    }
  }

  const SerializeFailurePrefix: string := "Failed to serialize request body to JSON: "

  /** SerializeToJson: the serialiser's text, or an InvalidOperationException
      wrapping whatever the serialiser threw. `serialize` stands for
      JsonSerializer.Serialize with camel-case names. */
  function SerializeToJson<B>(body: B, serialize: B -> Result<string, string>): (r: Result<string, Exception>)
    ensures r.Ok? <==> serialize(body).Ok?
    ensures r.Ok? ==> r.value == serialize(body).value
    ensures r.Err? ==> r.error == Exception(InvalidOperationException, SerializeFailurePrefix + serialize(body).error)
  {
    match serialize(body)
    case Ok(json) => Ok(json)
    case Err(message) => Err(Exception(InvalidOperationException, SerializeFailurePrefix + message))
  }

  /** The body attachment of PostAsync and PutAsync: a non-null body is
      serialised and set as the JSON content; a null body leaves the request
      without content. */
  method AttachJsonBody<B>(request: HttpRequestMessage, body: Option<B>, serialize: B -> Result<string, string>)
    returns (failure: Option<Exception>)
    modifies request`content
    ensures body.None? ==> failure.None? && request.content == old(request.content)
    ensures body.Some? ==> match SerializeToJson(body.value, serialize)
                           case Ok(json) => failure.None? && request.content == Some(JsonContent(json))
                           case Err(e) => failure == Some(e) && request.content == old(request.content)
  {
    failure := None;
    if body.Some? {
      var json := SerializeToJson(body.value, serialize);
      if json.Err? {
        return Some(json.error);
      }
      request.content := Some(JsonContent(json.value));
    }
  }

  /** The request-building part of the operation each verb method retries:
      a fresh request for the verb and URI, the bearer header, and for POST
      and PUT only, the JSON body. Building fails only when serialising a
      POST or PUT body throws. */
  method PrepareRequest<B>(verb: HttpMethod, uri: RequestUri, body: Option<B>, bearerToken: Option<string>,
                           serialize: B -> Result<string, string>)
    returns (prepared: Result<Request, Exception>)
    ensures prepared.Err? <==> (verb == Post || verb == Put) && body.Some? && serialize(body.value).Err?
    ensures prepared.Err? ==> prepared.error == Exception(InvalidOperationException, SerializeFailurePrefix + serialize(body.value).error)
    ensures prepared.Ok? ==> prepared.value.verb == verb && prepared.value.uri == uri
    ensures prepared.Ok? ==> prepared.value.authorization == BearerHeader(bearerToken)
    ensures prepared.Ok? ==> (prepared.value.content.Some? <==> (verb == Post || verb == Put) && body.Some?)
    ensures prepared.Ok? && prepared.value.content.Some? ==>
              prepared.value.content.value == JsonContent(serialize(body.value).value)
  {
    var request := new HttpRequestMessage(verb, uri);
    AddBearerTokenIfProvided(request, bearerToken);
    if verb == Post || verb == Put {
      var failure := AttachJsonBody(request, body, serialize);
      if failure.Some? {
        return Err(failure.value);
      }
    }
    prepared := Ok(request.Snapshot());
  }

  // ------------------------------------------------------------ query string

  /** What BuildUrlWithQueryParams produces: the base URL itself when there
      are no parameters; otherwise the URL's own query with every parameter
      set, a parameter replacing an existing value of the same key.
      `parseQuery` stands for HttpUtility.ParseQueryString of the URL's query. */
  function QueryUri(baseUrl: string, queryParams: Option<map<string, string>>,
                    parseQuery: string -> map<string, string>): RequestUri
  {
    if queryParams.None? || |queryParams.value| == 0 then BaseUrl(baseUrl)
    else WithQuery(baseUrl, parseQuery(baseUrl) + queryParams.value)
  }

  /** BuildUrlWithQueryParams: return the base URL when the map is null or
      empty; otherwise set each parameter on the parsed query, one key at a
      time. */
  method BuildUrlWithQueryParams(baseUrl: string, queryParams: Option<map<string, string>>,
                                 parseQuery: string -> map<string, string>)
    returns (uri: RequestUri)
    ensures uri == QueryUri(baseUrl, queryParams, parseQuery)
    ensures (queryParams.None? || |queryParams.value| == 0) <==> uri == BaseUrl(baseUrl)
    ensures uri.WithQuery? ==>
              && uri.url == baseUrl
              && uri.query.Keys == parseQuery(baseUrl).Keys + queryParams.value.Keys
              && (forall k :: k in queryParams.value ==> uri.query[k] == queryParams.value[k])
              && (forall k :: k in parseQuery(baseUrl) && k !in queryParams.value ==>
                                uri.query[k] == parseQuery(baseUrl)[k])
  {
    if queryParams.None? || |queryParams.value| == 0 {
      return BaseUrl(baseUrl);
    }
    var params := queryParams.value;
    var existing := parseQuery(baseUrl);
    var query := existing;
    var pending := params.Keys;
    while pending != {}
      invariant pending <= params.Keys
      invariant query.Keys == existing.Keys + (params.Keys - pending)
      invariant forall k :: k in params && k !in pending ==> query[k] == params[k]
      invariant forall k :: k in existing && (k !in params || k in pending) ==> query[k] == existing[k]
      decreases pending
    {
      var key :| key in pending;
      query := query[key := params[key]];
      pending := pending - {key};
    }
    assert query == existing + params;
    uri := WithQuery(baseUrl, query);
  }

  // ---------------------------------------------------------------- responses

  datatype HttpResponse = HttpResponse(statusCode: int, content: string)

  /** What SendAsync and ReadAsStringAsync produced for one request: a
      response, or a transport exception (an HttpRequestException for a
      connection failure, a TaskCanceledException for the 30 s timeout). */
  datatype SendResult = Received(response: HttpResponse) | SendFailed(exception: Exception)

  predicate IsSuccessStatusCode(statusCode: int)
  {
    200 <= statusCode <= 299
  }

  const StatusFailureMessage: string := "Response status code does not indicate success."

  /** EnsureSuccessStatusCode: any status outside 200..299 throws an
      HttpRequestException. */
  function EnsureSuccessStatusCode(response: HttpResponse): (failure: Option<Exception>)
    ensures failure.None? <==> IsSuccessStatusCode(response.statusCode)
    ensures failure.Some? ==> failure.value.exceptionType == HttpRequestException && Retryable(failure.value)
  {
    if IsSuccessStatusCode(response.statusCode) then None
    else Some(Exception(HttpRequestException, StatusFailureMessage))
  }

  /** The target type T of a deserialisation: its Name, and string.Empty as a
      T when T is string (None for every other type). */
  datatype TargetType<T> = TargetType(name: string, stringEmpty: Option<T>)

  /** What JsonSerializer.Deserialize<T> does with a non-blank text: a value,
      a null, a JsonException, or some other exception. */
  datatype JsonParse<+T> = Parsed(value: T) | ParsedNull | JsonError(message: string) | ParseThrew(exception: Exception)

  datatype Deserializer<T> = Deserializer(target: TargetType<T>, parse: string -> JsonParse<T>)

  /** T = string: the one target type for which string.Empty is a T. */
  const StringTarget: TargetType<string> := TargetType("String", Some(""))

  const EmptyResponseMessage: string := "Cannot deserialize empty response to non-string type."
  const NullResultPrefix: string := "Deserialization resulted in null for type "
  const JsonFailurePrefix: string := "Failed to deserialize JSON response to type "

  /** DeserializeJson<T>. */
  function DeserializeJson<T>(json: string, deserializer: Deserializer<T>): (r: Outcome<T>)
    // a blank body is "" for T = string and an InvalidOperationException otherwise
    ensures IsNullOrWhiteSpace(Some(json)) ==>
              r == match deserializer.target.stringEmpty
                   case Some(empty) => Returned(empty)
                   case None => Threw(Exception(InvalidOperationException, EmptyResponseMessage))
    // otherwise the parser's value is returned exactly when it produced one
    ensures !IsNullOrWhiteSpace(Some(json)) ==>
              (r.Returned? <==> deserializer.parse(json).Parsed?) &&
              (r.Returned? ==> r.value == deserializer.parse(json).value)
    // a null result and a JsonException both surface as InvalidOperationException
    ensures !IsNullOrWhiteSpace(Some(json)) && deserializer.parse(json).ParsedNull? ==>
              r == Threw(Exception(InvalidOperationException, NullResultPrefix + deserializer.target.name))
    ensures !IsNullOrWhiteSpace(Some(json)) && deserializer.parse(json).JsonError? ==>
              r == Threw(Exception(InvalidOperationException,
                                   JsonFailurePrefix + deserializer.target.name + ": " + deserializer.parse(json).message))
    ensures !IsNullOrWhiteSpace(Some(json)) && deserializer.parse(json).ParseThrew? ==>
              r == Threw(deserializer.parse(json).exception)
  {
    if IsNullOrWhiteSpace(Some(json)) then
      match deserializer.target.stringEmpty
      case Some(empty) => Returned(empty)
      case None => Threw(Exception(InvalidOperationException, EmptyResponseMessage))
    else
      match deserializer.parse(json)
      case Parsed(v) => Returned(v)
      case ParsedNull => Threw(Exception(InvalidOperationException, NullResultPrefix + deserializer.target.name))
      case JsonError(message) =>
        Threw(Exception(InvalidOperationException, JsonFailurePrefix + deserializer.target.name + ": " + message))
      case ParseThrew(ex) => Threw(ex)
  }

  /** The empty-response exception is not retryable: its message has no 'u',
      so it cannot contain "timeout". */
  lemma EmptyResponseNotRetryable()
    ensures !Retryable(Exception(InvalidOperationException, EmptyResponseMessage))
  {
    NoUInEmptyResponseMessage();
    MissingCharNotContained(EmptyResponseMessage, "timeout", 5);
  }

  /** For T = string a blank body deserialises to "", whatever the parser. */
  lemma BlankBodyAsStringIsEmpty(json: string, parse: string -> JsonParse<string>)
    requires IsNullOrWhiteSpace(Some(json))
    ensures DeserializeJson(json, Deserializer(StringTarget, parse)) == Returned("")
  {
  }

  /** The "timeout" test is case-sensitive: an exception of another type
      whose message says TIMEOUT in capitals, and has no lower-case 'u'
      around it, is not retried. */
  lemma CapitalTimeoutNotRetryable(exceptionType: ExceptionType, before: string, after: string)
    requires exceptionType == InvalidOperationException || exceptionType.OtherException?
    requires 'u' !in before && 'u' !in after
    ensures !Retryable(Exception(exceptionType, before + "TIMEOUT" + after))
  {
    var message := before + "TIMEOUT" + after;
    assert 'u' !in message by {
      assert 'u' !in "TIMEOUT";
      forall i | 0 <= i < |message|
        ensures message[i] != 'u'
      {
        if i < |before| {
          assert message[i] == before[i];
        } else if i < |before| + 7 {
          assert message[i] == "TIMEOUT"[i - |before|];
        } else {
          assert message[i] == after[i - |before| - 7];
        }
      }
    }
    MissingCharNotContained(message, "timeout", 5);
  }

  lemma NoUInEmptyResponseMessage()
    ensures 'u' !in EmptyResponseMessage
  {
    NoUInPieces();
    assert EmptyResponseMessage == "Cannot deserialize empty r" + "esponse to non-string type.";
  }

  lemma NoUInPieces()
    ensures 'u' !in "Cannot deserialize empty r" + "esponse to non-string type."
  {
    assert 'u' !in "Cannot deserialize empty r";
    assert 'u' !in "esponse to non-string type.";
  }

  /** One run of the operation of a verb method: the prepared request (or
      the exception building it threw), what sending it produced, the status
      check, and deserialisation of the body. */
  function RunOnce<T>(prepared: Result<Request, Exception>, sent: Request -> SendResult,
                      deserializer: Deserializer<T>): (r: Outcome<T>)
    ensures prepared.Err? ==> r == Threw(prepared.error)
    ensures prepared.Ok? && sent(prepared.value).SendFailed? ==> r == Threw(sent(prepared.value).exception)
    ensures prepared.Ok? && sent(prepared.value).Received? ==>
              var response := sent(prepared.value).response;
              r == if IsSuccessStatusCode(response.statusCode) then DeserializeJson(response.content, deserializer)
                   else Threw(Exception(HttpRequestException, StatusFailureMessage))
  {
    match prepared
    case Err(ex) => Threw(ex)
    case Ok(request) =>
      match sent(request)
      case SendFailed(ex) => Threw(ex)
      case Received(response) =>
        match EnsureSuccessStatusCode(response)
        case Some(ex) => Threw(ex)
        case None => DeserializeJson(response.content, deserializer)
  }

  /** The operation a verb method hands to ExecuteWithRetryAsync, given the
      server's behaviour: `server(request, i)` is what sending produces on
      run number i. */
  function Operation<T>(prepared: Result<Request, Exception>, server: (Request, nat) -> SendResult,
                        deserializer: Deserializer<T>): nat -> Outcome<T>
  {
    (i: nat) => RunOnce(prepared, request => server(request, i), deserializer)
  }

  /** The common body of GetAsync, PostAsync, PutAsync and DeleteAsync. */
  method SendAsync<T, B>(verb: HttpMethod, url: string, body: Option<B>,
                         queryParams: Option<map<string, string>>, bearerToken: Option<string>,
                         parseQuery: string -> map<string, string>, serialize: B -> Result<string, string>,
                         server: (Request, nat) -> SendResult, deserializer: Deserializer<T>)
    returns (trace: CallTrace<T>, prepared: Result<Request, Exception>)
    ensures prepared.Ok? ==> prepared.value.uri == QueryUri(url, queryParams, parseQuery)
    ensures prepared.Ok? ==> prepared.value.verb == verb
    ensures prepared.Ok? ==> prepared.value.authorization == BearerHeader(bearerToken)
    ensures prepared.Ok? ==> (prepared.value.content.Some? <==> (verb == Post || verb == Put) && body.Some?)
    ensures prepared.Err? <==> (verb == Post || verb == Put) && body.Some? && serialize(body.value).Err?
    ensures prepared.Ok? && prepared.value.content.Some? ==>
              prepared.value.content.value == JsonContent(serialize(body.value).value)
    ensures prepared.Err? ==> prepared.error == Exception(InvalidOperationException, SerializeFailurePrefix + serialize(body.value).error)
    ensures trace == Retry(Operation(prepared, server, deserializer), 0)
  {
    var uri := BuildUrlWithQueryParams(url, queryParams, parseQuery);
    prepared := PrepareRequest(verb, uri, body, bearerToken, serialize);
    trace := ExecuteWithRetryAsync(Operation(prepared, server, deserializer));
  }

  /** GetAsync: never carries a body. */
  method GetAsync<T>(url: string, queryParams: Option<map<string, string>>, bearerToken: Option<string>,
                     parseQuery: string -> map<string, string>,
                     server: (Request, nat) -> SendResult, deserializer: Deserializer<T>)
    returns (trace: CallTrace<T>, prepared: Result<Request, Exception>)
    ensures prepared.Ok? && prepared.value.verb == Get && prepared.value.content.None?
    ensures prepared.value.uri == QueryUri(url, queryParams, parseQuery)
    ensures prepared.value.authorization == BearerHeader(bearerToken)
    ensures trace == Retry(Operation(prepared, server, deserializer), 0)
  {
    trace, prepared := SendAsync<T, ()>(Get, url, None, queryParams, bearerToken, parseQuery,
                                        _ => Ok(""), server, deserializer);
  }

  /** DeleteAsync: never carries a body. */
  method DeleteAsync<T>(url: string, queryParams: Option<map<string, string>>, bearerToken: Option<string>,
                        parseQuery: string -> map<string, string>,
                        server: (Request, nat) -> SendResult, deserializer: Deserializer<T>)
    returns (trace: CallTrace<T>, prepared: Result<Request, Exception>)
    ensures prepared.Ok? && prepared.value.verb == Delete && prepared.value.content.None?
    ensures prepared.value.uri == QueryUri(url, queryParams, parseQuery)
    ensures prepared.value.authorization == BearerHeader(bearerToken)
    ensures trace == Retry(Operation(prepared, server, deserializer), 0)
  {
    trace, prepared := SendAsync<T, ()>(Delete, url, None, queryParams, bearerToken, parseQuery,
                                        _ => Ok(""), server, deserializer);
  }

  /** PostAsync: the body, when not null, is sent as JSON. */
  method PostAsync<T, B>(url: string, body: Option<B>, queryParams: Option<map<string, string>>,
                         bearerToken: Option<string>, parseQuery: string -> map<string, string>,
                         serialize: B -> Result<string, string>,
                         server: (Request, nat) -> SendResult, deserializer: Deserializer<T>)
    returns (trace: CallTrace<T>, prepared: Result<Request, Exception>)
    ensures prepared.Err? <==> body.Some? && serialize(body.value).Err?
    ensures prepared.Ok? ==> prepared.value.verb == Post
    ensures prepared.Ok? ==> prepared.value.uri == QueryUri(url, queryParams, parseQuery)
    ensures prepared.Ok? ==> prepared.value.authorization == BearerHeader(bearerToken)
    ensures prepared.Ok? ==> (prepared.value.content.Some? <==> body.Some?)
    ensures prepared.Ok? && prepared.value.content.Some? ==>
              prepared.value.content.value == JsonContent(serialize(body.value).value)
    ensures prepared.Err? ==> prepared.error == Exception(InvalidOperationException, SerializeFailurePrefix + serialize(body.value).error)
    ensures trace == Retry(Operation(prepared, server, deserializer), 0)
  {
    trace, prepared := SendAsync(Post, url, body, queryParams, bearerToken, parseQuery, serialize, server, deserializer);
  }

  /** PutAsync: the body, when not null, is sent as JSON. */
  method PutAsync<T, B>(url: string, body: Option<B>, queryParams: Option<map<string, string>>,
                        bearerToken: Option<string>, parseQuery: string -> map<string, string>,
                        serialize: B -> Result<string, string>,
                        server: (Request, nat) -> SendResult, deserializer: Deserializer<T>)
    returns (trace: CallTrace<T>, prepared: Result<Request, Exception>)
    ensures prepared.Err? <==> body.Some? && serialize(body.value).Err?
    ensures prepared.Ok? ==> prepared.value.verb == Put
    ensures prepared.Ok? ==> prepared.value.uri == QueryUri(url, queryParams, parseQuery)
    ensures prepared.Ok? ==> prepared.value.authorization == BearerHeader(bearerToken)
    ensures prepared.Ok? ==> (prepared.value.content.Some? <==> body.Some?)
    ensures prepared.Ok? && prepared.value.content.Some? ==>
              prepared.value.content.value == JsonContent(serialize(body.value).value)
    ensures prepared.Err? ==> prepared.error == Exception(InvalidOperationException, SerializeFailurePrefix + serialize(body.value).error)
    ensures trace == Retry(Operation(prepared, server, deserializer), 0)
  {
    trace, prepared := SendAsync(Put, url, body, queryParams, bearerToken, parseQuery, serialize, server, deserializer);
  }

  // ------------------------------------------------- end-to-end consequences

  /** Because EnsureSuccessStatusCode throws HttpRequestException, a server
      that keeps answering with an error status (400, 401, 500, ...) is
      retried exactly like a broken connection: four sends, waits of 1, 2 and
      4 seconds, then the HttpRequestException propagates. */
  lemma ErrorStatusIsRetried<T>(request: Request, server: (Request, nat) -> SendResult, deserializer: Deserializer<T>)
    requires forall i: nat :: i < 4 ==> server(request, i).Received? && !IsSuccessStatusCode(server(request, i).response.statusCode)
    ensures Retry(Operation(Ok(request), server, deserializer), 0)
            == CallTrace(Threw(Exception(HttpRequestException, StatusFailureMessage)), 4, [1000, 2000, 4000])
  {
    var op := Operation(Ok(request), server, deserializer);
    forall j | 0 <= j < 4
      ensures op(j) == Threw(Exception(HttpRequestException, StatusFailureMessage))
    {
    }
    FourthRetryableFailurePropagates(op);
  }

  /** An empty successful response for a non-string T ends the call after one
      send: the InvalidOperationException is not retried. */
  lemma EmptyBodyForObjectNotRetried<T>(request: Request, server: (Request, nat) -> SendResult,
                                        deserializer: Deserializer<T>)
    requires server(request, 0).Received?
    requires IsSuccessStatusCode(server(request, 0).response.statusCode)
    requires IsNullOrWhiteSpace(Some(server(request, 0).response.content))
    requires deserializer.target.stringEmpty.None?
    ensures Retry(Operation(Ok(request), server, deserializer), 0)
            == CallTrace(Threw(Exception(InvalidOperationException, EmptyResponseMessage)), 1, [])
  {
    EmptyResponseNotRetryable();
    NonRetryablePropagatesAtOnce(Operation(Ok(request), server, deserializer));
  }

  /** A serialiser failure whose message mentions "timeout" makes the
      (never sent) request run four times, with the full backoff, before the
      InvalidOperationException propagates. */
  lemma SerializeTimeoutRetriedFourTimes<T>(before: string, after: string,
                                            server: (Request, nat) -> SendResult, deserializer: Deserializer<T>)
    ensures var failure := Exception(InvalidOperationException, SerializeFailurePrefix + before + "timeout" + after);
            Retry(Operation(Err(failure), server, deserializer), 0)
            == CallTrace(Threw(failure), 4, [1000, 2000, 4000])
  {
    var failure := Exception(InvalidOperationException, SerializeFailurePrefix + before + "timeout" + after);
    ContainsInfix(SerializeFailurePrefix + before, "timeout", after);
    SerializeFailureRunCount(failure, server, deserializer);
  }

  /** A request whose body cannot be serialised is never sent, and the same
      exception is thrown on every run: it propagates at once unless its
      message happens to contain "timeout", in which case all four runs are
      made first. */
  lemma SerializeFailureRunCount<T>(failure: Exception, server: (Request, nat) -> SendResult,
                                    deserializer: Deserializer<T>)
    ensures var r := Retry(Operation(Err(failure), server, deserializer), 0);
      && r.outcome == Threw(failure)
      && r.attempts == (if Retryable(failure) then 4 else 1)
      && r.delays == BackoffScheduleMs[..r.attempts - 1]
  {
    var op := Operation(Err(failure), server, deserializer);
    if Retryable(failure) {
      FourthRetryableFailurePropagates(op);
    } else {
      NonRetryablePropagatesAtOnce(op);
    }
  }
}
