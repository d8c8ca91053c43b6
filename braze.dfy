/** The client core of braze.go: configuration by options, request construction,
    response classification and the text of an API error. The HTTP exchange itself is an
    input: a transport failure, or a response given by its status, its content length and
    what decoding its body yields. */
module Braze {
  import opened Wrappers
  import opened Json

  const DefaultBaseURL: string := "https://rest.iad-05.braze.com"
  /** Declared by the library but never installed in a client nor sent in a request. */
  const DefaultUserAgent: string := "go-braze"
  const DefaultTimeoutSeconds: nat := 10

  const StatusOK := 200
  const StatusCreated := 201
  const StatusAccepted := 202
  const StatusBadRequest := 400
  const StatusUnauthorized := 401
  const StatusForbidden := 403
  const StatusNotFound := 404
  const StatusUnprocessableEntity := 422
  const StatusTooManyRequests := 429

  /** A minor, per-item error reported inside a response. */
  datatype MinorError = MinorError(errorType: string, inputArray: string, index: int)

  /** The body shape shared by successful and structured-error responses. */
  datatype Response = Response(message: string, sendId: string, deleted: int, errors: seq<MinorError>)

  const EmptyResponse := Response("", "", 0, [])

  /** A request-level failure reported by the API: the body fields plus the status code. */
  datatype ErrorResponse = ErrorResponse(response: Response, errorCode: int) {

    /** The error string, assembled piece by piece as the source does with a string builder. */
    method Error() returns (s: string)
      ensures s == ErrorText(this)
    {
      s := "";
      s := s + Itoa(errorCode) + ": ";
      s := s + response.message;
      if |response.errors| != 0 {
        s := s + ": ";
        s := s + FormatMinorErrors(response.errors);
      }
    }
  }

  /** Every error the client core returns. Go returns them all as `error`; the kinds are
      told apart here. */
  datatype ClientError =
    | TransportError(cause: string)
    | EncodeError(cause: string)
    | DecodeError(cause: string)
    | ApiError(fault: ErrorResponse)
    | OptionError(cause: string)
    | Invalid(message: string)
    | NotImplemented

  // ---------------------------------------------------------------------------
  // Decimal text, as fmt's %d and %v write an int

  function DigitChar(d: nat): (c: char)
    requires d < 10
    ensures '0' <= c <= '9' && (c as int) - ('0' as int) == d
  {
    "0123456789"[d]
  }

  /** The decimal digits of a natural number, most significant first, without leading zeros. */
  function NatDigits(n: nat): (s: string)
    ensures |s| >= 1
    ensures forall i :: 0 <= i < |s| ==> '0' <= s[i] <= '9'
    ensures |s| > 1 ==> s[0] != '0'
    decreases n
  {
    if n < 10 then [DigitChar(n)] else NatDigits(n / 10) + [DigitChar(n % 10)]
  }

  /** Go's %d: a minus sign for negative numbers, then the digits of the magnitude. */
  function Itoa(n: int): string {
    if n < 0 then "-" + NatDigits(-n) else NatDigits(n)
  }

  /** The value of a string of decimal digits. */
  function DigitsValue(s: string): int
    decreases |s|
  {
    if s == [] then 0 else DigitsValue(s[..|s| - 1]) * 10 + ((s[|s| - 1] as int) - ('0' as int))
  }

  /** Reads back what Itoa writes. */
  function Atoi(s: string): int {
    if |s| > 0 && s[0] == '-' then -DigitsValue(s[1..]) else DigitsValue(s)
  }

  lemma {:induction false} NatDigitsRoundTrip(n: nat)
    ensures DigitsValue(NatDigits(n)) == n
    decreases n
  {
    if n >= 10 {
      NatDigitsRoundTrip(n / 10);
      var s := NatDigits(n);
      assert s[..|s| - 1] == NatDigits(n / 10);
    }
  }

  /** The decimal text of a status code or index determines the number. */
  lemma ItoaRoundTrip(n: int)
    ensures Atoi(Itoa(n)) == n
  {
    if n < 0 {
      NatDigitsRoundTrip(-n);
      assert Itoa(n)[1..] == NatDigits(-n);
    } else {
      NatDigitsRoundTrip(n);
    }
  }

  /** fmt's %v of one minor error: the struct's fields in braces, separated by spaces. */
  function FormatMinorError(e: MinorError): string {
    "{" + e.errorType + " " + e.inputArray + " " + Itoa(e.index) + "}"
  }

  function JoinMinorErrors(errs: seq<MinorError>): string
    decreases |errs|
  {
    if errs == [] then ""
    else if |errs| == 1 then FormatMinorError(errs[0])
    else FormatMinorError(errs[0]) + " " + JoinMinorErrors(errs[1..])
  }

  /** fmt's %v of a slice: the elements in brackets, separated by spaces. */
  function FormatMinorErrors(errs: seq<MinorError>): string {
    "[" + JoinMinorErrors(errs) + "]"
  }

  /** "<code>: <message>", followed by ": <errors>" exactly when there are minor errors. */
  function ErrorText(e: ErrorResponse): (s: string)
    ensures Itoa(e.errorCode) + ": " + e.response.message <= s
    ensures s == Itoa(e.errorCode) + ": " + e.response.message <==> |e.response.errors| == 0
    ensures |e.response.errors| != 0 ==>
      s == Itoa(e.errorCode) + ": " + e.response.message + ": " + FormatMinorErrors(e.response.errors)
  {
    var head := Itoa(e.errorCode) + ": " + e.response.message;
    if |e.response.errors| == 0 then head else head + ": " + FormatMinorErrors(e.response.errors)
  }

  /** The status code can be read back from the front of the error text. */
  lemma ErrorTextStartsWithCode(e: ErrorResponse)
    ensures var code := Itoa(e.errorCode);
      code <= ErrorText(e) && Atoi(ErrorText(e)[..|code|]) == e.errorCode
      && ErrorText(e)[|code|] == ':'
  {
    var code := Itoa(e.errorCode);
    var s := ErrorText(e);
    assert s[..|code|] == code;
    ItoaRoundTrip(e.errorCode);
  }

  // ---------------------------------------------------------------------------
  // Response classification

  predicate IsSuccessStatus(code: int) {
    code == StatusOK || code == StatusCreated || code == StatusAccepted
  }

  /** The statuses whose body is trusted to follow the API's error schema. */
  predicate IsStructuredStatus(code: int) {
    || code == StatusNotFound
    || code == StatusBadRequest
    || code == StatusUnprocessableEntity
    || code == StatusUnauthorized
    || code == StatusForbidden
    || code == StatusTooManyRequests
  }

  /** What decoding a response body into an ErrorResponse yields: the JSON literal null,
      an object with the Response fields, or a decode error. */
  datatype ErrorBody = NullBody | ObjectBody(fields: Response) | Undecodable(cause: string)

  /** A received response. `valueBody` is what decoding the body into the caller's
      result value yields. A content length of -1 means unknown. */
  datatype HttpResponse<T> = HttpResponse(
    statusCode: int,
    contentLength: int,
    errorBody: ErrorBody,
    valueBody: Result<T, string>)

  /** The outcome of handing a request to the transport. */
  datatype Exchange<T> = TransportFailed(cause: string) | Received(response: HttpResponse<T>)

  /** Maps a status to no error (success), a structured error decoded from the body, or an
      opaque error carrying only the status. A `null` body under a structured status is
      read as an empty error body (see ParseErrorAsWritten for what the source does). */
  function ParseError<T>(resp: HttpResponse<T>): (r: Option<ClientError>)
    ensures r.None? <==> IsSuccessStatus(resp.statusCode)
    ensures IsStructuredStatus(resp.statusCode) && resp.errorBody.Undecodable? ==>
      r == Some(DecodeError(resp.errorBody.cause))
    ensures IsStructuredStatus(resp.statusCode) && resp.errorBody.ObjectBody? ==>
      r == Some(ApiError(ErrorResponse(resp.errorBody.fields, resp.statusCode)))
    ensures IsStructuredStatus(resp.statusCode) && resp.errorBody.NullBody? ==>
      r == Some(ApiError(ErrorResponse(EmptyResponse, resp.statusCode)))
    ensures !IsSuccessStatus(resp.statusCode) && !IsStructuredStatus(resp.statusCode) ==>
      r == Some(ApiError(ErrorResponse(EmptyResponse, resp.statusCode)))
    ensures r.Some? && r.value.ApiError? ==> r.value.fault.errorCode == resp.statusCode
  {
    var status := resp.statusCode;
    if IsSuccessStatus(status) then None
    else if IsStructuredStatus(status) then
      match resp.errorBody
      case Undecodable(cause) => Some(DecodeError(cause))
      case NullBody => Some(ApiError(ErrorResponse(EmptyResponse, status)))
      case ObjectBody(fields) => Some(ApiError(ErrorResponse(fields, status)))
    else
      Some(ApiError(ErrorResponse(EmptyResponse, status)))
  }

  /** An opaque status never looks at the body: two responses with that status and any
      bodies classify alike. */
  lemma OpaqueStatusIgnoresBody<T>(a: HttpResponse<T>, b: HttpResponse<T>)
    requires a.statusCode == b.statusCode
    requires !IsSuccessStatus(a.statusCode) && !IsStructuredStatus(a.statusCode)
    ensures ParseError(a) == ParseError(b)
  {
  }

  /** parseError exactly as the source writes it. Decoding the JSON literal null into
      `&e` sets the pointer `e` to nil, and the assignment to `e.ErrorCode` that follows
      then dereferences nil. */
  datatype ParseOutcome = NoError | Returned(err: ClientError) | Panicked(reason: string)

  function ParseErrorAsWritten<T>(resp: HttpResponse<T>): (r: ParseOutcome)
    ensures r.Panicked? <==> IsStructuredStatus(resp.statusCode) && resp.errorBody.NullBody?
  {
    var status := resp.statusCode;
    if IsSuccessStatus(status) then NoError
    else if IsStructuredStatus(status) then
      match resp.errorBody
      case Undecodable(cause) => Returned(DecodeError(cause))
      case NullBody => Panicked("nil pointer dereference")
      case ObjectBody(fields) => Returned(ApiError(ErrorResponse(fields, status)))
    else
      Returned(ApiError(ErrorResponse(EmptyResponse, status)))
  }

  /** The input that shows the discrepancy: status 400 with the body `null`. */
  lemma NullErrorBodyPanics()
    ensures ParseErrorAsWritten(HttpResponse(StatusBadRequest, 4, NullBody, Success(0))).Panicked?
    ensures ParseError(HttpResponse(StatusBadRequest, 4, NullBody, Success(0)))
      == Some(ApiError(ErrorResponse(EmptyResponse, StatusBadRequest)))
  {
  }

  /** Everywhere else the corrected classification agrees with the source. */
  lemma ParseErrorAgreesWithSource<T>(resp: HttpResponse<T>)
    requires !(IsStructuredStatus(resp.statusCode) && resp.errorBody.NullBody?)
    ensures ParseError(resp).None? ==> ParseErrorAsWritten(resp) == NoError
    ensures ParseError(resp).Some? ==> ParseErrorAsWritten(resp) == Returned(ParseError(resp).value)
  {
  }

  /** Whether `do` decodes the success body: only when the body is not known to be empty and
      the caller passed somewhere to put it. */
  predicate DecodesBody<T>(resp: HttpResponse<T>, target: Option<T>) {
    resp.contentLength != 0 && target.Some?
  }

  /** The dispatch step after the transport: a transport error is returned unchanged; then the
      status is classified; only on success is the body decoded into the target. `target` is
      None for a nil destination and otherwise holds its current value; the result holds
      its value afterwards. */
  function Do<T>(exchange: Exchange<T>, target: Option<T>): (r: Result<Option<T>, ClientError>)
    ensures exchange.TransportFailed? ==> r == Failure(TransportError(exchange.cause))
    ensures exchange.Received? && !IsSuccessStatus(exchange.response.statusCode) ==>
      r.Failure? && ParseError(exchange.response) == Some(r.error)
    ensures r.Success? <==>
      exchange.Received? && IsSuccessStatus(exchange.response.statusCode)
      && !(DecodesBody(exchange.response, target) && exchange.response.valueBody.Failure?)
    ensures r.Success? && DecodesBody(exchange.response, target) ==>
      r.value == Some(exchange.response.valueBody.value)
    ensures r.Success? && !DecodesBody(exchange.response, target) ==> r.value == target
    ensures r.Failure? && exchange.Received? && IsSuccessStatus(exchange.response.statusCode) ==>
      r.error == DecodeError(exchange.response.valueBody.error)
  {
    match exchange
    case TransportFailed(cause) => Failure(TransportError(cause))
    case Received(resp) =>
      match ParseError(resp)
      case Some(err) => Failure(err)
      case None =>
        if DecodesBody(resp, target) then
          match resp.valueBody
          case Success(v) => Success(Some(v))
          case Failure(cause) => Failure(DecodeError(cause))
        else
          Success(target)
  }

  /** A 500 answer fails with an error carrying only the status, whatever its body. */
  lemma InternalServerErrorIsOpaque<T>(resp: HttpResponse<T>, target: Option<T>)
    requires resp.statusCode == 500
    ensures Do(Received(resp), target) == Failure(ApiError(ErrorResponse(EmptyResponse, 500)))
  {
  }

  /** A 422 answer whose body lists one minor error fails with that structured error. */
  lemma UnprocessableEntityKeepsMinorErrors<T>(resp: HttpResponse<T>, target: Option<T>)
    requires resp.statusCode == StatusUnprocessableEntity
    requires resp.errorBody == ObjectBody(Response("success", "", 0, [MinorError("x", "attributes", 1)]))
    ensures Do(Received(resp), target)
      == Failure(ApiError(ErrorResponse(Response("success", "", 0, [MinorError("x", "attributes", 1)]), 422)))
  {
  }

  /** A 201 answer with an empty body succeeds and leaves the target as it was. */
  lemma CreatedWithEmptyBodyKeepsTarget<T>(resp: HttpResponse<T>, target: Option<T>)
    requires resp.statusCode == StatusCreated && resp.contentLength == 0
    ensures Do(Received(resp), target) == Success(target)
  {
  }

  // ---------------------------------------------------------------------------
  // Configuration and request construction

  /** The transport handle; of the *http.Client only its timeout is modelled. */
  datatype Transport = Transport(timeoutSeconds: nat)

  /** The target of a request: a path resolved against the base URL. */
  datatype Url = Url(base: string, path: string)

  /** The state of an httpClient as one value. */
  datatype HttpConfig = HttpConfig(baseURL: string, apiKey: string, userAgent: string, transport: Transport)

  /** What NewClient installs before any option runs: the regional base URL and a 10 s
      timeout. The API key and the user agent stay empty. */
  const DefaultConfig := HttpConfig(DefaultBaseURL, "", "", Transport(DefaultTimeoutSeconds))

  /** The body handed to newRequest. `NoBody` is Go's nil interface; a typed nil pointer is
      a `Payload` (it encodes as `null`). `encoded` is what the JSON encoder yields. */
  datatype Body = NoBody | Payload(encoded: Result<JsonValue, string>)

  datatype HttpRequest = HttpRequest(verb: string, url: Url, payload: Option<JsonValue>, header: map<string, string>)

  const MethodPost := "POST"
  const ContentTypeJson := "application/json"

  class HttpClient {
    var baseURL: string
    var apiKey: string
    var userAgent: string
    var transport: Transport

    constructor (config: HttpConfig)
      ensures Config() == config
    {
      baseURL := config.baseURL;
      apiKey := config.apiKey;
      userAgent := config.userAgent;
      transport := config.transport;
    }

    function Config(): HttpConfig
      reads this
    {
      HttpConfig(baseURL, apiKey, userAgent, transport)
    }

    /** Builds a request: encodes the body if there is one (a failure aborts), sets the JSON
        content type only when a body is present, and always sets the bearer authorization. */
    method NewRequest(verb: string, path: string, body: Body) returns (r: Result<HttpRequest, ClientError>)
      ensures body.Payload? && body.encoded.Failure? ==> r == Failure(EncodeError(body.encoded.error))
      ensures r.Success? <==> !(body.Payload? && body.encoded.Failure?)
      ensures r.Success? ==>
        && r.value.verb == verb
        && r.value.url == Url(baseURL, path)
        && r.value.payload == (if body.Payload? then Some(body.encoded.value) else None)
      ensures r.Success? ==>
        && "Authorization" in r.value.header
        && r.value.header["Authorization"] == "Bearer " + apiKey
        && ("Content-Type" in r.value.header <==> body.Payload?)
        && (body.Payload? ==> r.value.header["Content-Type"] == ContentTypeJson)
        && r.value.header.Keys <= {"Authorization", "Content-Type"}
    {
      var payload: Option<JsonValue> := None;
      if body.Payload? {
        if body.encoded.Failure? {
          return Failure(EncodeError(body.encoded.error));
        }
        payload := Some(body.encoded.value);
      }
      var req := HttpRequest(verb, Url(baseURL, path), payload, map[]);
      if body.Payload? {
        req := req.(header := req.header["Content-Type" := ContentTypeJson]);
      }
      req := req.(header := req.header["Authorization" := "Bearer " + apiKey]);
      return Success(req);
    }
  }

  /** A functional option. The four the library offers cannot fail; `Custom` stands for any
      option a caller writes, which either returns a new configuration or an error. */
  datatype ClientOption =
    | BaseURL(url: string)
    | APIKey(key: string)
    | UserAgent(agent: string)
    | HTTPClient(transport: Transport)
    | Custom(apply: HttpConfig -> Result<HttpConfig, string>)

  function ApplyOption(config: HttpConfig, o: ClientOption): Result<HttpConfig, string> {
    match o
    case BaseURL(u) => Success(config.(baseURL := u))
    case APIKey(k) => Success(config.(apiKey := k))
    case UserAgent(a) => Success(config.(userAgent := a))
    case HTTPClient(t) => Success(config.(transport := t))
    case Custom(apply) => apply(config)
  }

  /** The options applied in order, stopping at the first that fails: the configuration
      reached, and the error if one failed. Options before the failing one stay applied. */
  function FoldOptions(config: HttpConfig, opts: seq<ClientOption>): (HttpConfig, Option<ClientError>)
    decreases |opts|
  {
    if opts == [] then (config, None)
    else
      match ApplyOption(config, opts[0])
      case Failure(cause) => (config, Some(OptionError(cause)))
      case Success(next) => FoldOptions(next, opts[1..])
  }

  /** Applying `pre + post` is applying `pre`, then, if that succeeded, `post`. */
  lemma {:induction false} FoldOptionsAppend(config: HttpConfig, pre: seq<ClientOption>, post: seq<ClientOption>)
    ensures FoldOptions(config, pre).1.Some? ==> FoldOptions(config, pre + post) == FoldOptions(config, pre)
    ensures FoldOptions(config, pre).1.None? ==>
      FoldOptions(config, pre + post) == FoldOptions(FoldOptions(config, pre).0, post)
    decreases |pre|
  {
    if pre == [] {
      assert pre + post == post;
    } else {
      assert (pre + post)[0] == pre[0];
      assert (pre + post)[1..] == pre[1..] + post;
      match ApplyOption(config, pre[0])
      case Failure(_) =>
      case Success(next) => FoldOptionsAppend(next, pre[1..], post);
    }
  }

  /** The first failing option ends the fold: the options after it do not run. */
  lemma FoldOptionsStopsAtFirstFailure(config: HttpConfig, pre: seq<ClientOption>, o: ClientOption, post: seq<ClientOption>)
    requires FoldOptions(config, pre).1.None?
    requires ApplyOption(FoldOptions(config, pre).0, o).Failure?
    ensures FoldOptions(config, pre + [o] + post)
      == (FoldOptions(config, pre).0, Some(OptionError(ApplyOption(FoldOptions(config, pre).0, o).error)))
  {
    FoldOptionsAppend(config, pre, [o] + post);
    assert pre + [o] + post == pre + ([o] + post);
  }

  /** A later option for the same field overwrites an earlier one. */
  lemma LastAPIKeyWins(config: HttpConfig, opts: seq<ClientOption>, key: string)
    requires FoldOptions(config, opts).1.None?
    ensures FoldOptions(config, opts + [APIKey(key)]).1.None?
    ensures FoldOptions(config, opts + [APIKey(key)]).0 == FoldOptions(config, opts).0.(apiKey := key)
  {
    FoldOptionsAppend(config, opts, [APIKey(key)]);
  }

  lemma LastBaseURLWins(config: HttpConfig, opts: seq<ClientOption>, url: string)
    requires FoldOptions(config, opts).1.None?
    ensures FoldOptions(config, opts + [BaseURL(url)]).1.None?
    ensures FoldOptions(config, opts + [BaseURL(url)]).0 == FoldOptions(config, opts).0.(baseURL := url)
  {
    FoldOptionsAppend(config, opts, [BaseURL(url)]);
  }

  /** The library's own options never fail. */
  lemma {:induction false} BuiltinOptionsNeverFail(config: HttpConfig, opts: seq<ClientOption>)
    requires forall i :: 0 <= i < |opts| ==> !opts[i].Custom?
    ensures FoldOptions(config, opts).1.None?
    decreases |opts|
  {
    if opts != [] {
      BuiltinOptionsNeverFail(ApplyOption(config, opts[0]).value, opts[1..]);
    }
  }

  /** The configuration the tests build: an API key and a base URL over the defaults. */
  lemma TestClientConfiguration(url: string)
    ensures FoldOptions(DefaultConfig, [APIKey("key"), BaseURL(url)])
      == (HttpConfig(url, "key", "", Transport(10)), None)
  {
    var opts := [APIKey("key"), BaseURL(url)];
    var keyed := DefaultConfig.(apiKey := "key");
    assert opts[1..] == [BaseURL(url)];
    assert FoldOptions(keyed, [BaseURL(url)]) == FoldOptions(keyed.(baseURL := url), []);
  }

  class Client {
    const http: HttpClient

    constructor (http: HttpClient)
      ensures this.http == http
    {
      this.http := http;
    }

    /** Runs the options in order against the client's configuration and stops at the first
        error, which it returns. */
    method ApplyOptions(opts: seq<ClientOption>) returns (err: Option<ClientError>)
      modifies http
      ensures (http.Config(), err) == FoldOptions(old(http.Config()), opts)
    {
      for i := 0 to |opts|
        invariant FoldOptions(http.Config(), opts[i..]) == FoldOptions(old(http.Config()), opts)
      {
        assert opts[i..][0] == opts[i] && opts[i..][1..] == opts[i + 1..];
        match opts[i]
        case BaseURL(u) => http.baseURL := u;
        case APIKey(k) => http.apiKey := k;
        case UserAgent(a) => http.userAgent := a;
        case HTTPClient(t) => http.transport := t;
        case Custom(apply) =>
          var next := apply(http.Config());
          if next.Failure? {
            return Some(OptionError(next.error));
          }
          http.baseURL, http.apiKey, http.userAgent, http.transport :=
            next.value.baseURL, next.value.apiKey, next.value.userAgent, next.value.transport;
      }
      assert opts[|opts|..] == [];
      return None;
    }

    /** Installs the defaults, then the options; any option error means no client. */
    static method NewClient(opts: seq<ClientOption>) returns (r: Result<Client, ClientError>)
      ensures r.Success? <==> FoldOptions(DefaultConfig, opts).1.None?
      ensures r.Failure? ==> Some(r.error) == FoldOptions(DefaultConfig, opts).1
      ensures r.Success? ==> fresh(r.value) && fresh(r.value.http)
      ensures r.Success? ==> r.value.http.Config() == FoldOptions(DefaultConfig, opts).0
    {
      var http := new HttpClient(DefaultConfig);
      var c := new Client(http);
      var err := c.ApplyOptions(opts);
      if err.Some? {
        return Failure(err.value);
      }
      return Success(c);
    }
  }
}
