/**
 * `RestClient` (pypaca/rest/rest.py): credential resolution at construction,
 * URL composition, authentication headers, routing of the payload into the
 * query string or the JSON body, and the bounded retry loop around single
 * HTTP exchanges.
 *
 * The HTTP session is an oracle: the responses it would return, in order,
 * are a `seq<Response>`, and running out of them stands for the session
 * raising. `time.sleep` is recorded in a log of requested waits.
 */
module Rest {

  import opened PyValues
  import opened Encoding
  import opened RestEnums
  import opened RestCredentials
  import opened RestExceptions

  const BOTH_SUPPLIED := "Either an oauth_token or an api_key may be supplied, but not both"
  const PROVIDE_BOTH_KEYS := "You must provide both the `api_key` and `secret_key`"
  const INVALID_CREDENTIALS := "Invalid API credentials."
  const NEGATIVE_SLEEP := "sleep length must be non-negative"

  const AUTHORIZATION := "Authorization"
  const KEY_ID_HEADER := "APCA-API-KEY-ID"
  const SECRET_KEY_HEADER := "APCA-API-SECRET-KEY"
  const USER_AGENT := "User-Agent"

  /** The constructor's defaults. */
  const DEFAULT_API_VERSION := "v2"
  const DEFAULT_RETRY_ATTEMPTS := 3
  const DEFAULT_RETRY_WAIT_SECONDS := 3
  const DEFAULT_RETRY_CODES: seq<int> := [429, 504]

  // ---------------------------------------------------------------------
  // Construction

  /**
   * Lines 48-60 of `__init__`: which `Credentials` object is built from the
   * three arguments. Explicit arguments that are given (truthy) are passed to
   * `Credentials(...)`; the fields not passed come from the environment.
   */
  function ResolveCredentials(apiKey: Option<string>, secretKey: Option<string>, oauthToken: Option<string>,
                              env: Environment): (r: Result<Credentials>)
    ensures r.Success? ==> HasOneMethod(r.value)
    ensures Truthy(oauthToken) && (Truthy(apiKey) || Truthy(secretKey)) ==> r == Failure(ValueError(BOTH_SUPPLIED))
    ensures !Truthy(oauthToken) && Truthy(apiKey) != Truthy(secretKey) ==> r == Failure(ValueError(PROVIDE_BOTH_KEYS))
    ensures !Truthy(apiKey) && !Truthy(secretKey) && !Truthy(oauthToken) ==> r == FromEnvironment(env)
  {
    if !(Truthy(apiKey) || Truthy(secretKey) || Truthy(oauthToken)) then FromEnvironment(env)
    else if Truthy(oauthToken) then
      if Truthy(apiKey) || Truthy(secretKey) then Failure(ValueError(BOTH_SUPPLIED))
      else WithOAuthToken(oauthToken.value, env)
    else if Truthy(apiKey) != Truthy(secretKey) then Failure(ValueError(PROVIDE_BOTH_KEYS))
    else WithKeyPair(apiKey.value, secretKey.value, env)
  }

  /**
   * What the caller passes wins over the environment: a given token is the
   * client's token, a given key pair is the client's pair, and the
   * environment decides whether construction succeeds only through the
   * fields not given.
   */
  lemma ExplicitCredentialsWin(apiKey: Option<string>, secretKey: Option<string>, oauthToken: Option<string>,
                               env: Environment)
    ensures Truthy(oauthToken) && !Truthy(apiKey) && !Truthy(secretKey) ==>
      && (ResolveCredentials(apiKey, secretKey, oauthToken, env).Success? <==> !Truthy(env.apiKey) && !Truthy(env.secretKey))
      && (ResolveCredentials(apiKey, secretKey, oauthToken, env).Success? ==>
            ResolveCredentials(apiKey, secretKey, oauthToken, env).value.oauthToken == oauthToken)
    ensures !Truthy(oauthToken) && Truthy(apiKey) && Truthy(secretKey) ==>
      && (ResolveCredentials(apiKey, secretKey, oauthToken, env).Success? <==> !Truthy(env.oauthToken))
      && (ResolveCredentials(apiKey, secretKey, oauthToken, env).Success? ==>
            ResolveCredentials(apiKey, secretKey, oauthToken, env).value.apiKey == apiKey &&
            ResolveCredentials(apiKey, secretKey, oauthToken, env).value.secretKey == secretKey)
  {
  }

  // ---------------------------------------------------------------------
  // Headers

  /** The Basic credentials token: base 64 of the UTF-8 of `f"{api_key}:{secret_key}"`. */
  function BasicToken(apiKey: Option<string>, secretKey: Option<string>): string {
    Base64Encode(Utf8(Format(apiKey) + ":" + Format(secretKey)))
  }

  /** `_get_auth_headers`: one scheme, in the priority token, Basic, key pair. */
  function AuthHeaders(c: Credentials, useBasicAuth: bool): Result<map<string, string>> {
    if Truthy(c.oauthToken) then Success(map[AUTHORIZATION := "Bearer " + c.oauthToken.value])
    else if useBasicAuth then Success(map[AUTHORIZATION := "Basic " + BasicToken(c.apiKey, c.secretKey)])
    else if Truthy(c.apiKey) && Truthy(c.secretKey) then
      Success(map[KEY_ID_HEADER := c.apiKey.value, SECRET_KEY_HEADER := c.secretKey.value])
    else Failure(ValueError(INVALID_CREDENTIALS))
  }

  /** `_get_default_headers`: the auth headers plus the library's user agent. */
  function DefaultHeaders(c: Credentials, useBasicAuth: bool): Result<map<string, string>> {
    match AuthHeaders(c, useBasicAuth)
    case Failure(e) => Failure(e)
    case Success(h) => Success(h[USER_AGENT := "APCA-PY/" + VERSION])
  }

  /**
   * Exactly one scheme is emitted, chosen by priority; the failure happens
   * exactly when none applies.
   */
  lemma AuthHeadersSchemes(c: Credentials, useBasicAuth: bool)
    ensures AuthHeaders(c, useBasicAuth).Failure? <==>
      !Truthy(c.oauthToken) && !useBasicAuth && !(Truthy(c.apiKey) && Truthy(c.secretKey))
    ensures AuthHeaders(c, useBasicAuth).Failure? ==>
      AuthHeaders(c, useBasicAuth).error == ValueError(INVALID_CREDENTIALS)
    ensures AuthHeaders(c, useBasicAuth).Success? ==>
      var keys := AuthHeaders(c, useBasicAuth).value.Keys;
      (keys == {AUTHORIZATION}) != (keys == {KEY_ID_HEADER, SECRET_KEY_HEADER})
    ensures Truthy(c.oauthToken) ==>
      AuthHeaders(c, useBasicAuth) == Success(map[AUTHORIZATION := "Bearer " + c.oauthToken.value])
    ensures !Truthy(c.oauthToken) && useBasicAuth ==>
      AuthHeaders(c, useBasicAuth).Success? &&
      AuthHeaders(c, useBasicAuth).value.Keys == {AUTHORIZATION}
  {
  }

  /** A client whose credentials passed validation always gets an auth scheme. */
  lemma ValidCredentialsHaveHeaders(c: Credentials, useBasicAuth: bool)
    requires HasOneMethod(c)
    ensures DefaultHeaders(c, useBasicAuth).Success?
    ensures DefaultHeaders(c, useBasicAuth).value[USER_AGENT] == "APCA-PY/0.0.1"
  {
  }

  /** The user agent is always present, and the auth entries are kept as they are. */
  lemma DefaultHeadersExtendAuth(c: Credentials, useBasicAuth: bool)
    ensures DefaultHeaders(c, useBasicAuth).Success? <==> AuthHeaders(c, useBasicAuth).Success?
    ensures DefaultHeaders(c, useBasicAuth).Success? ==>
      var h := DefaultHeaders(c, useBasicAuth).value;
      && h.Keys == AuthHeaders(c, useBasicAuth).value.Keys + {USER_AGENT}
      && h[USER_AGENT] == "APCA-PY/" + VERSION
      && forall k :: k in AuthHeaders(c, useBasicAuth).value ==> h[k] == AuthHeaders(c, useBasicAuth).value[k]
  {
  }

  /**
   * The receiving side of section 2 of RFC 7617: stripping `"Basic "` and
   * decoding the base 64 gives back the UTF-8 of the key, a colon and the
   * secret.
   */
  lemma BasicHeaderDecodes(c: Credentials)
    requires !Truthy(c.oauthToken)
    ensures AuthHeaders(c, true).Success?
    ensures var value := AuthHeaders(c, true).value[AUTHORIZATION];
      && StartsWith(value, "Basic ")
      && Base64Decode(value[6..]) == Bytes(Utf8(Format(c.apiKey)) + Utf8(":") + Utf8(Format(c.secretKey)))
  {
    var user, password := Format(c.apiKey), Format(c.secretKey);
    var value := "Basic " + BasicToken(c.apiKey, c.secretKey);
    assert value[6..] == BasicToken(c.apiKey, c.secretKey);
    Base64RoundTrip(Utf8(user + ":" + password));
    Utf8Append(user + ":", password);
    Utf8Append(user, ":");
  }

  /** Section 2.1 of RFC 6750: the header carries the token after `"Bearer "`, unaltered. */
  lemma BearerHeaderCarriesToken(c: Credentials, useBasicAuth: bool)
    requires Truthy(c.oauthToken)
    ensures var value := AuthHeaders(c, useBasicAuth).value[AUTHORIZATION];
      StartsWith(value, "Bearer ") && value[7..] == c.oauthToken.value
  {
    var value := "Bearer " + c.oauthToken.value;
    assert value[..7] == "Bearer ";
    assert value[7..] == c.oauthToken.value;
  }

  // ---------------------------------------------------------------------
  // Request preparation

  /** The keyword arguments given to `Session.request`. */
  datatype OptValue = Headers(h: map<string, string>) | Flag(b: bool) | Data(d: Json)

  /** One call to `Session.request(method, url, **opts)`. */
  datatype Call = Call(verb: string, url: string, opts: map<string, OptValue>)

  /** Whether the verb sends its payload as query parameters. */
  predicate SendsParams(verb: string) {
    Upper(verb) in ["GET", "DELETE"]
  }

  /** The `opts` dict of `_request`. */
  function Opts(verb: string, headers: map<string, string>, data: Json): map<string, OptValue> {
    var opts := map["headers" := Headers(headers), "allow_redirects" := Flag(false)];
    if SendsParams(verb) then opts["params" := Data(data)] else opts["json" := Data(data)]
  }

  /**
   * The payload goes exactly once, as params for GET/DELETE in any case and
   * as the JSON body otherwise; redirects are always refused.
   */
  lemma OptsRouting(verb: string, headers: map<string, string>, data: Json)
    ensures var opts := Opts(verb, headers, data);
      && opts.Keys == {"headers", "allow_redirects", if SendsParams(verb) then "params" else "json"}
      && opts["headers"] == Headers(headers)
      && opts["allow_redirects"] == Flag(false)
      && ("params" in opts <==> SendsParams(verb))
      && ("json" in opts <==> !SendsParams(verb))
      && opts[if SendsParams(verb) then "params" else "json"] == Data(data)
  {
  }

  /** The verbs of the five wrappers, upper-case already, routed as the code routes them. */
  lemma WrapperVerbsRouting()
    ensures SendsParams("GET") && SendsParams("DELETE") && SendsParams("get") && SendsParams("Delete")
    ensures !SendsParams("POST") && !SendsParams("PUT") && !SendsParams("PATCH")
  {
    UpperGet();
    UpperDelete();
    // POST and PATCH differ from both in length, PUT from GET in its first letter.
    assert Upper("PUT")[0] == 'P';
  }

  lemma UpperGet()
    ensures Upper("GET") == "GET" && Upper("get") == "GET"
  {
    var u, l := Upper("GET"), Upper("get");
    assert u[0] == 'G' && u[1] == 'E' && u[2] == 'T';
    assert l[0] == 'G' && l[1] == 'E' && l[2] == 'T';
  }

  lemma UpperDelete()
    ensures Upper("DELETE") == "DELETE" && Upper("Delete") == "DELETE"
  {
    var u, m := Upper("DELETE"), Upper("Delete");
    assert u[0] == 'D' && u[1] == 'E' && u[2] == 'L' && u[3] == 'E' && u[4] == 'T' && u[5] == 'E';
    assert m[0] == 'D' && m[1] == 'E' && m[2] == 'L' && m[3] == 'E' && m[4] == 'T' && m[5] == 'E';
  }

  /** `base + "/" + version + path` */
  function JoinUrl(base: string, version: string, path: string): string {
    base + "/" + version + path
  }

  /** The URL splits back into its three parts with exactly the one `/` of the join between base and version. */
  lemma JoinUrlParts(base: string, version: string, path: string)
    ensures var url := JoinUrl(base, version, path);
      && |url| == |base| + 1 + |version| + |path|
      && url[..|base|] == base
      && url[|base|] == '/'
      && url[|base| + 1..|base| + 1 + |version|] == version
      && url[|base| + 1 + |version|..] == path
  {
    var url := JoinUrl(base, version, path);
    assert url == base + ("/" + version + path);
    assert url[|base| + 1..] == version + path;
  }

  /** For an enumerated base the join never doubles the slash. */
  lemma EnumeratedBaseSingleSlash(u: BaseURL, version: string, path: string)
    requires version == [] || version[0] != '/'
    ensures var url := JoinUrl(u.Value(), version, path);
      url[|u.Value()| - 1] != '/' && url[|u.Value()|] == '/' &&
      (|version| > 0 ==> url[|u.Value()| + 1] != '/')
  {
    BaseURLShape(u);
    JoinUrlParts(u.Value(), version, path);
    var url := JoinUrl(u.Value(), version, path);
    assert url[|u.Value()| - 1] == url[..|u.Value()|][|u.Value()| - 1];
    if |version| > 0 {
      assert url[|u.Value()| + 1] == url[|u.Value()| + 1..|u.Value()| + 1 + |version|][0];
    }
  }

  // ---------------------------------------------------------------------
  // One exchange and the retry loop

  /** What the session's response exposes: status, text, and `json()` of it (`None` when it is not JSON). */
  datatype Response = Response(status: int, text: string, decoded: Option<Json>)

  /** `raise_for_status` raises for client and server errors (section 15 of RFC 9110). */
  predicate IsErrorStatus(status: int) {
    400 <= status < 600
  }

  /** How `_one_request` ends: a value, `RetryError`, or another exception. */
  datatype Step = Returned(value: Json) | Retry | Raised(error: PyError)

  /** `_one_request` on the response the session gave. */
  function OneRequest(retryCodes: seq<int>, response: Response, retry: int): (s: Step)
    ensures s.Retry? <==> IsErrorStatus(response.status) && response.status in retryCodes && retry > 0
    ensures IsErrorStatus(response.status) && !s.Retry? ==>
      s.Raised? &&
      s.error == (match NewApiError(response.status, response.decoded) case Success(e) => e case Failure(e) => e)
    ensures !IsErrorStatus(response.status) && response.text == "" ==> s == Returned(JNull)
    ensures !IsErrorStatus(response.status) && response.text != "" ==>
      s == (match response.decoded case Some(v) => Returned(v) case None => Raised(JsonDecodeError))
  {
    if IsErrorStatus(response.status) then
      if response.status in retryCodes && retry > 0 then Retry
      else
        match NewApiError(response.status, response.decoded)
        case Success(e) => Raised(e)
        case Failure(e) => Raised(e)
    else if response.text != "" then
      match response.decoded
      case Some(v) => Returned(v)
      case None => Raised(JsonDecodeError)
    else Returned(JNull)
  }

  /** The end of `_request` and how many requests and sleeps led there. */
  datatype Trace = Trace(outcome: Result<Json>, attempts: nat, sleeps: nat)

  function Shift(t: Trace, k: nat): Trace {
    Trace(t.outcome, t.attempts + k, t.sleeps + k)
  }

  /** The retry loop of `_request`, as the outcome of the responses the session would give. */
  function Dispatch(retryCodes: seq<int>, retryWait: int, retry: int, transport: seq<Response>): Trace
    decreases if retry < 0 then 0 else retry + 1
  {
    if retry < 0 then Trace(Success(JNull), 0, 0)
    else if transport == [] then Trace(Failure(TransportError), 1, 0)
    else
      match OneRequest(retryCodes, transport[0], retry)
      case Returned(v) => Trace(Success(v), 1, 0)
      case Raised(e) => Trace(Failure(e), 1, 0)
      case Retry =>
        if retryWait < 0 then Trace(Failure(ValueError(NEGATIVE_SLEEP)), 1, 0)
        else Shift(Dispatch(retryCodes, retryWait, retry - 1, transport[1..]), 1)
  }

  /** A retried attempt sleeps once and hands the rest of the responses to the next attempt. */
  lemma DispatchAfterRetry(retryCodes: seq<int>, retryWait: int, retry: int, transport: seq<Response>)
    requires retry >= 0 && transport != [] && retryWait >= 0
    requires OneRequest(retryCodes, transport[0], retry).Retry?
    ensures Dispatch(retryCodes, retryWait, retry, transport) ==
      Shift(Dispatch(retryCodes, retryWait, retry - 1, transport[1..]), 1)
  {
    var next := Dispatch(retryCodes, retryWait, retry - 1, transport[1..]);
    var once := OneRequest(retryCodes, transport[0], retry);
    assert once == Retry;
    assert Dispatch(retryCodes, retryWait, retry, transport) == Shift(next, 1);
  }

  /**
   * At most `retry + 1` requests, one sleep between consecutive requests and
   * none after the last; no request at all, and `None`, only for a negative
   * counter.
   */
  lemma {:induction false} DispatchCounts(retryCodes: seq<int>, retryWait: int, retry: int, transport: seq<Response>)
    ensures var t := Dispatch(retryCodes, retryWait, retry, transport);
      && (t.attempts == 0 <==> retry < 0)
      && (retry < 0 ==> t.outcome == Success(JNull))
      && (retry >= 0 ==> t.attempts <= retry + 1 && t.sleeps == t.attempts - 1)
      && t.attempts <= |transport| + 1
    decreases if retry < 0 then 0 else retry + 1
  {
    if retry >= 0 && transport != [] {
      var step := OneRequest(retryCodes, transport[0], retry);
      if step.Retry? && retryWait >= 0 {
        DispatchAfterRetry(retryCodes, retryWait, retry, transport);
        DispatchCounts(retryCodes, retryWait, retry - 1, transport[1..]);
      }
    }
  }

  /** The error `_one_request` raises for a response it does not retry. */
  function ErrorFor(response: Response): PyError {
    match NewApiError(response.status, response.decoded) case Success(e) => e case Failure(e) => e
  }

  /**
   * When every response is a retryable error, the attempt with counter 0
   * raises the `APIError` of the last response: the loop does not fall
   * through to `return None`.
   */
  lemma {:induction false} ExhaustionRaises(retryCodes: seq<int>, retryWait: int, retry: int, transport: seq<Response>)
    requires retry >= 0 && retryWait >= 0 && |transport| > retry
    requires forall i :: 0 <= i <= retry ==>
      IsErrorStatus(transport[i].status) && transport[i].status in retryCodes
    ensures Dispatch(retryCodes, retryWait, retry, transport) ==
      Trace(Failure(ErrorFor(transport[retry])), retry + 1, retry)
    decreases retry
  {
    if retry > 0 {
      var rest := transport[1..];
      assert forall i :: 0 <= i <= retry - 1 ==> rest[i] == transport[i + 1];
      ExhaustionRaises(retryCodes, retryWait, retry - 1, rest);
      assert rest[retry - 1] == transport[retry];
    }
  }

  /** A non-retryable error status raises on that attempt: no sleep, no further request. */
  lemma NonRetryableErrorStops(retryCodes: seq<int>, retryWait: int, retry: int, transport: seq<Response>)
    requires retry >= 0 && transport != []
    requires IsErrorStatus(transport[0].status) && (transport[0].status !in retryCodes || retry == 0)
    ensures Dispatch(retryCodes, retryWait, retry, transport) == Trace(Failure(ErrorFor(transport[0])), 1, 0)
    ensures ErrorFor(transport[0]).ApiError? ==> ErrorFor(transport[0]).status == transport[0].status
  {
  }

  /** A success answers with its decoded JSON, or `None` when the body is empty. */
  lemma SuccessReturns(retryCodes: seq<int>, retryWait: int, retry: int, transport: seq<Response>)
    requires retry >= 0 && transport != [] && !IsErrorStatus(transport[0].status)
    ensures transport[0].text == "" ==> Dispatch(retryCodes, retryWait, retry, transport) == Trace(Success(JNull), 1, 0)
    ensures transport[0].text != "" && transport[0].decoded.Some? ==>
      Dispatch(retryCodes, retryWait, retry, transport) == Trace(Success(transport[0].decoded.value), 1, 0)
  {
  }

  function Repeat<T>(x: T, n: nat): (s: seq<T>)
    ensures |s| == n && forall i :: 0 <= i < n ==> s[i] == x
  {
    if n == 0 then [] else Repeat(x, n - 1) + [x]
  }

  /** What `_request` ends with, the calls the session received, and the sleeps in order. */
  datatype Run = Run(result: Result<Json>, sent: seq<Call>, waits: seq<int>)

  // ---------------------------------------------------------------------
  // The client

  class RestClient {
    const apiKey: Option<string>
    const secretKey: Option<string>
    const oauthToken: Option<string>
    const apiVersion: string
    const baseUrl: string
    const sandbox: bool
    const useBasicAuth: bool
    const retry: int
    const retryWait: int
    const retryCodes: seq<int>

    /** Lines 61-73 of `__init__`: store the resolved credentials and the settings. */
    constructor(baseUrl: string, credentials: Credentials, useBasicAuth: bool, apiVersion: string, sandbox: bool,
                retryAttempts: int, retryWaitSeconds: int, retryExceptionCodes: seq<int>)
      ensures Creds() == credentials
      ensures this.baseUrl == baseUrl && this.apiVersion == apiVersion && this.sandbox == sandbox
      ensures this.useBasicAuth == useBasicAuth
      ensures retry == retryAttempts && retryWait == retryWaitSeconds && retryCodes == retryExceptionCodes
    {
      apiKey, secretKey, oauthToken := credentials.apiKey, credentials.secretKey, credentials.oauthToken;
      this.apiVersion := apiVersion;
      this.baseUrl := baseUrl;
      this.sandbox := sandbox;
      this.useBasicAuth := useBasicAuth;
      retry := retryAttempts;
      retryWait := retryWaitSeconds;
      retryCodes := retryExceptionCodes;
    }

    /** `RestClient(...)`: resolve the credentials, then construct; a failed resolution raises. */
    static method Create(baseUrl: string, apiKey: Option<string>, secretKey: Option<string>, oauthToken: Option<string>,
                         env: Environment, useBasicAuth: bool, apiVersion: string, sandbox: bool,
                         retryAttempts: int, retryWaitSeconds: int, retryExceptionCodes: seq<int>)
      returns (r: Result<RestClient>)
      ensures r.Success? <==> ResolveCredentials(apiKey, secretKey, oauthToken, env).Success?
      ensures r.Failure? ==> r.error == ResolveCredentials(apiKey, secretKey, oauthToken, env).error
      ensures r.Success? ==>
        && fresh(r.value)
        && r.value.Valid()
        && r.value.Creds() == ResolveCredentials(apiKey, secretKey, oauthToken, env).value
        && r.value.baseUrl == baseUrl && r.value.apiVersion == apiVersion && r.value.sandbox == sandbox
        && r.value.useBasicAuth == useBasicAuth
        && r.value.retry == retryAttempts && r.value.retryWait == retryWaitSeconds
        && r.value.retryCodes == retryExceptionCodes
    {
      var credentials := ResolveCredentials(apiKey, secretKey, oauthToken, env);
      if credentials.Failure? {
        return Failure(credentials.error);
      }
      var client := new RestClient(baseUrl, credentials.value, useBasicAuth, apiVersion, sandbox,
                                   retryAttempts, retryWaitSeconds, retryExceptionCodes);
      return Success(client);
    }

    function Creds(): Credentials {
      Credentials(apiKey, secretKey, oauthToken)
    }

    /** What every client built through `Create` satisfies. */
    predicate Valid() {
      HasOneMethod(Creds())
    }

    /** `base_url or self._base_url` and `api_version if api_version else self._api_version`, joined. */
    function Url(baseOverride: Option<string>, versionOverride: Option<string>, path: string): string {
      JoinUrl(OrElse(baseOverride, baseUrl), OrElse(versionOverride, apiVersion), path)
    }

    /** Empty or missing overrides fall back to the client's base URL and version. */
    lemma UrlFallback(baseOverride: Option<string>, versionOverride: Option<string>, path: string)
      ensures var base := if Truthy(baseOverride) then baseOverride.value else baseUrl;
        var version := if Truthy(versionOverride) then versionOverride.value else apiVersion;
        && Url(baseOverride, versionOverride, path) == base + "/" + version + path
        && Url(baseOverride, versionOverride, path)[..|base|] == base
        && Url(baseOverride, versionOverride, path)[|base| + 1 + |version|..] == path
      ensures Url(None, Some(""), path) == Url(Some(""), None, path) == Url(None, None, path)
    {
      var base := if Truthy(baseOverride) then baseOverride.value else baseUrl;
      var version := if Truthy(versionOverride) then versionOverride.value else apiVersion;
      JoinUrlParts(base, version, path);
    }

    /** `_get_auth_headers`, filling the dict entry by entry. */
    method GetAuthHeaders() returns (r: Result<map<string, string>>)
      ensures r == AuthHeaders(Creds(), useBasicAuth)
    {
      var headers: map<string, string> := map[];
      if Truthy(oauthToken) {
        headers := headers[AUTHORIZATION := "Bearer " + oauthToken.value];
      } else if useBasicAuth {
        var encoded := BasicToken(apiKey, secretKey);
        headers := headers[AUTHORIZATION := "Basic " + encoded];
      } else if Truthy(apiKey) && Truthy(secretKey) {
        headers := headers[KEY_ID_HEADER := apiKey.value];
        headers := headers[SECRET_KEY_HEADER := secretKey.value];
      } else {
        return Failure(ValueError(INVALID_CREDENTIALS));
      }
      return Success(headers);
    }

    /** `_get_default_headers`. */
    method GetDefaultHeaders() returns (r: Result<map<string, string>>)
      ensures r == DefaultHeaders(Creds(), useBasicAuth)
    {
      r := GetAuthHeaders();
      if r.Success? {
        var headers := r.value;
        headers := headers[USER_AGENT := "APCA-PY/" + VERSION];
        r := Success(headers);
      }
    }

    /** The call `_request` prepares once, before the loop. */
    function PrepareCall(verb: string, path: string, data: Json,
                         baseOverride: Option<string>, versionOverride: Option<string>): Result<Call> {
      match DefaultHeaders(Creds(), useBasicAuth)
      case Failure(e) => Failure(e)
      case Success(headers) => Success(Call(verb, Url(baseOverride, versionOverride, path), Opts(verb, headers, data)))
    }

    /**
     * `_request` as a function of the responses: the one prepared call is
     * sent as often as the retry loop attempts, and a wait of `retryWait`
     * separates consecutive attempts.
     */
    function RequestSpec(verb: string, path: string, data: Json,
                         baseOverride: Option<string>, versionOverride: Option<string>,
                         transport: seq<Response>): Run {
      match PrepareCall(verb, path, data, baseOverride, versionOverride)
      case Failure(e) => Run(Failure(e), [], [])
      case Success(call) =>
        var t := Dispatch(retryCodes, retryWait, retry, transport);
        Run(t.outcome, Repeat(call, t.attempts), Repeat(retryWait, t.sleeps))
    }

    /** The preparation `_request` does before its loop: URL, default headers, and the routed payload. */
    method PrepareRequest(verb: string, path: string, data: Json,
                          baseOverride: Option<string>, versionOverride: Option<string>)
      returns (r: Result<Call>)
      ensures r == PrepareCall(verb, path, data, baseOverride, versionOverride)
    {
      var url := Url(baseOverride, versionOverride, path);
      var headers := GetDefaultHeaders();
      if headers.Failure? {
        return Failure(headers.error);
      }
      var opts := map["headers" := Headers(headers.value), "allow_redirects" := Flag(false)];
      if Upper(verb) in ["GET", "DELETE"] {
        opts := opts["params" := Data(data)];
      } else {
        opts := opts["json" := Data(data)];
      }
      r := Success(Call(verb, url, opts));
    }

    /** `_request`: prepare once, then `while retry >= 0` around `_one_request`. */
    method Request(verb: string, path: string, data: Json,
                   baseOverride: Option<string>, versionOverride: Option<string>, transport: seq<Response>)
      returns (result: Result<Json>, sent: seq<Call>, waits: seq<int>)
      ensures Run(result, sent, waits) == RequestSpec(verb, path, data, baseOverride, versionOverride, transport)
    {
      var prepared := PrepareRequest(verb, path, data, baseOverride, versionOverride);
      if prepared.Failure? {
        return Failure(prepared.error), [], [];
      }
      var call := prepared.value;
      ghost var t := Dispatch(retryCodes, retryWait, retry, transport);
      assert RequestSpec(verb, path, data, baseOverride, versionOverride, transport) ==
             Run(t.outcome, Repeat(call, t.attempts), Repeat(retryWait, t.sleeps));

      var counter := retry;
      var remaining := transport;
      sent, waits := [], [];
      while counter >= 0
        invariant retry >= 0 ==> 0 <= counter <= retry
        invariant retry < 0 ==> counter == retry
        invariant retry - counter <= |transport| && remaining == transport[retry - counter..]
        invariant sent == Repeat(call, retry - counter) && waits == Repeat(retryWait, retry - counter)
        invariant t == Shift(Dispatch(retryCodes, retryWait, counter, remaining), retry - counter)
        decreases counter + 1
      {
        ghost var done := retry - counter;
        sent := sent + [call];
        assert sent == Repeat(call, done + 1);
        if remaining == [] {
          return Failure(TransportError), sent, waits;
        }
        var step := OneRequest(retryCodes, remaining[0], counter);
        match step {
          case Returned(v) =>
            return Success(v), sent, waits;
          case Raised(e) =>
            return Failure(e), sent, waits;
          case Retry =>
            if retryWait < 0 {
              return Failure(ValueError(NEGATIVE_SLEEP)), sent, waits;
            }
            ghost var next := Dispatch(retryCodes, retryWait, counter - 1, remaining[1..]);
            DispatchAfterRetry(retryCodes, retryWait, counter, remaining);
            assert t == Shift(next, done + 1);
            assert remaining[1..] == transport[done + 1..];
            waits := waits + [retryWait];
            counter := counter - 1;
            remaining := remaining[1..];
        }
      }
      result := Success(JNull);
    }

    /** `get`: a GET, with the optional base URL and version overrides of `**kwargs`. */
    method Get(path: string, data: Json, baseOverride: Option<string>, versionOverride: Option<string>,
               transport: seq<Response>)
      returns (result: Result<Json>, sent: seq<Call>, waits: seq<int>)
      ensures Run(result, sent, waits) == RequestSpec("GET", path, data, baseOverride, versionOverride, transport)
    {
      result, sent, waits := Request("GET", path, data, baseOverride, versionOverride, transport);
    }

    method Post(path: string, data: Json, transport: seq<Response>)
      returns (result: Result<Json>, sent: seq<Call>, waits: seq<int>)
      ensures Run(result, sent, waits) == RequestSpec("POST", path, data, None, None, transport)
    {
      result, sent, waits := Request("POST", path, data, None, None, transport);
    }

    method Put(path: string, data: Json, transport: seq<Response>)
      returns (result: Result<Json>, sent: seq<Call>, waits: seq<int>)
      ensures Run(result, sent, waits) == RequestSpec("PUT", path, data, None, None, transport)
    {
      result, sent, waits := Request("PUT", path, data, None, None, transport);
    }

    method Patch(path: string, data: Json, transport: seq<Response>)
      returns (result: Result<Json>, sent: seq<Call>, waits: seq<int>)
      ensures Run(result, sent, waits) == RequestSpec("PATCH", path, data, None, None, transport)
    {
      result, sent, waits := Request("PATCH", path, data, None, None, transport);
    }

    method Delete(path: string, data: Json, transport: seq<Response>)
      returns (result: Result<Json>, sent: seq<Call>, waits: seq<int>)
      ensures Run(result, sent, waits) == RequestSpec("DELETE", path, data, None, None, transport)
    {
      result, sent, waits := Request("DELETE", path, data, None, None, transport);
    }

    /**
     * Every request the loop sends is the same call, with the URL and opts
     * built once; the number of requests and sleeps is bounded by the
     * retry setting; a valid client never fails before the first request.
     */
    lemma RequestShape(verb: string, path: string, data: Json,
                       baseOverride: Option<string>, versionOverride: Option<string>, transport: seq<Response>)
      requires Valid()
      ensures var run := RequestSpec(verb, path, data, baseOverride, versionOverride, transport);
        && PrepareCall(verb, path, data, baseOverride, versionOverride).Success?
        && (forall i :: 0 <= i < |run.sent| ==>
              run.sent[i] == PrepareCall(verb, path, data, baseOverride, versionOverride).value)
        && (retry >= 0 ==> 1 <= |run.sent| <= retry + 1 && |run.waits| == |run.sent| - 1)
        && (retry < 0 ==> run.sent == [] && run.result == Success(JNull))
        && (forall i :: 0 <= i < |run.waits| ==> run.waits[i] == retryWait)
    {
      ValidCredentialsHaveHeaders(Creds(), useBasicAuth);
      DispatchCounts(retryCodes, retryWait, retry, transport);
    }

    /** The call that goes out: the composed URL, the default headers, and the payload routed by verb. */
    lemma PreparedCallContents(verb: string, path: string, data: Json,
                               baseOverride: Option<string>, versionOverride: Option<string>)
      requires Valid()
      ensures var call := PrepareCall(verb, path, data, baseOverride, versionOverride).value;
        && call.verb == verb
        && call.url == Url(baseOverride, versionOverride, path)
        && call.opts["headers"] == Headers(DefaultHeaders(Creds(), useBasicAuth).value)
        && call.opts["allow_redirects"] == Flag(false)
        && ("params" in call.opts <==> SendsParams(verb))
        && ("json" in call.opts <==> !SendsParams(verb))
    {
      ValidCredentialsHaveHeaders(Creds(), useBasicAuth);
      OptsRouting(verb, DefaultHeaders(Creds(), useBasicAuth).value, data);
    }
  }
}
