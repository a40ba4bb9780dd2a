/**
 * `TradingClient` (pypaca/trading/client.py): a `RestClient` fixed to the
 * trading API, with the account endpoints. The subclass relation is
 * modelled by composition: the trading client holds the `RestClient` its
 * constructor configures.
 *
 * The route strings live in a module that is not part of this model, so
 * they are a parameter; pydantic's `TypeAdapter(...).validate_python` of
 * the response is a parameter too.
 */
module TradingClient {

  import opened PyValues
  import opened RestEnums
  import opened RestCredentials
  import opened Rest

  /** The two route values the account methods use. */
  datatype Routes = Routes(account: string, accountConfigurations: string)

  /** The version every trading client uses, whatever its caller wants. */
  const TRADING_API_VERSION := "v2"

  /** `BaseURL.TRADING_PAPER if sandbox else BaseURL.TRADING_LIVE` */
  function TradingBaseUrl(sandbox: bool): (u: BaseURL)
    ensures u.Value() == HTTPS + (if sandbox then "paper-api.alpaca.markets" else "api.alpaca.markets")
    ensures !u.IsStream()
  {
    if sandbox then TRADING_PAPER else TRADING_LIVE
  }

  /** A result passed through response validation, or the exception the request raised. */
  function Validated<A>(response: Result<Json>, validate: Json -> Result<A>): (r: Result<A>)
    ensures response.Failure? ==> r == Failure(response.error)
    ensures response.Success? ==> r == validate(response.value)
  {
    match response
    case Failure(e) => Failure(e)
    case Success(v) => validate(v)
  }

  class TradingClient {
    const rest: RestClient

    constructor(rest: RestClient)
      ensures this.rest == rest
    {
      this.rest := rest;
    }

    /**
     * `TradingClient(...)`: the base URL follows `sandbox`, the version is
     * always "v2", everything else is forwarded unchanged.
     */
    static method Create(apiKey: Option<string>, secretKey: Option<string>, oauthToken: Option<string>,
                         env: Environment, useBasicAuth: bool, sandbox: bool,
                         retryAttempts: int, retryWaitSeconds: int, retryExceptionCodes: seq<int>)
      returns (r: Result<TradingClient>)
      ensures r.Success? <==> ResolveCredentials(apiKey, secretKey, oauthToken, env).Success?
      ensures r.Failure? ==> r.error == ResolveCredentials(apiKey, secretKey, oauthToken, env).error
      ensures r.Success? ==>
        && fresh(r.value) && fresh(r.value.rest)
        && r.value.rest.Valid()
        && r.value.rest.Creds() == ResolveCredentials(apiKey, secretKey, oauthToken, env).value
        && r.value.rest.baseUrl == TradingBaseUrl(sandbox).Value()
        && r.value.rest.apiVersion == TRADING_API_VERSION
        && r.value.rest.sandbox == sandbox && r.value.rest.useBasicAuth == useBasicAuth
        && r.value.rest.retry == retryAttempts && r.value.rest.retryWait == retryWaitSeconds
        && r.value.rest.retryCodes == retryExceptionCodes
    {
      var base := TradingBaseUrl(sandbox);
      var created := RestClient.Create(base.Value(), apiKey, secretKey, oauthToken, env, useBasicAuth,
                                       TRADING_API_VERSION, sandbox, retryAttempts, retryWaitSeconds,
                                       retryExceptionCodes);
      if created.Failure? {
        return Failure(created.error);
      }
      var client := new TradingClient(created.value);
      return Success(client);
    }

    /** `TradingClient()` with every default: paper trading and the REST client's retry defaults. */
    static method CreateWithDefaults(env: Environment) returns (r: Result<TradingClient>)
      ensures r.Success? <==> FromEnvironment(env).Success?
      ensures r.Success? ==>
        && fresh(r.value) && fresh(r.value.rest)
        && r.value.rest.Creds() == env
        && r.value.rest.baseUrl == TRADING_PAPER.Value()
        && !r.value.rest.useBasicAuth && r.value.rest.sandbox
        && r.value.rest.retry == DEFAULT_RETRY_ATTEMPTS && r.value.rest.retryWait == DEFAULT_RETRY_WAIT_SECONDS
        && r.value.rest.retryCodes == DEFAULT_RETRY_CODES
    {
      r := Create(None, None, None, env, false, true, DEFAULT_RETRY_ATTEMPTS, DEFAULT_RETRY_WAIT_SECONDS,
                  DEFAULT_RETRY_CODES);
    }

    /** `get_account`: a GET of the account route, validated as a trade account. */
    method GetAccount<A>(routes: Routes, validate: Json -> Result<A>, transport: seq<Response>)
      returns (r: Result<A>, sent: seq<Call>, waits: seq<int>)
      ensures var run := rest.RequestSpec("GET", routes.account, JNull, None, None, transport);
        r == Validated(run.result, validate) && sent == run.sent && waits == run.waits
    {
      var response;
      response, sent, waits := rest.Get(routes.account, JNull, None, None, transport);
      r := Validated(response, validate);
    }

    /** `get_account_configurations`: a GET of the configurations route. */
    method GetAccountConfigurations<A>(routes: Routes, validate: Json -> Result<A>, transport: seq<Response>)
      returns (r: Result<A>, sent: seq<Call>, waits: seq<int>)
      ensures var run := rest.RequestSpec("GET", routes.accountConfigurations, JNull, None, None, transport);
        r == Validated(run.result, validate) && sent == run.sent && waits == run.waits
    {
      var response;
      response, sent, waits := rest.Get(routes.accountConfigurations, JNull, None, None, transport);
      r := Validated(response, validate);
    }

    /** `set_account_configurations`: a PATCH of the configurations route carrying the request's `model_dump()`. */
    method SetAccountConfigurations<A>(routes: Routes, dump: map<string, Json>, validate: Json -> Result<A>,
                                       transport: seq<Response>)
      returns (r: Result<A>, sent: seq<Call>, waits: seq<int>)
      ensures var run := rest.RequestSpec("PATCH", routes.accountConfigurations, JObject(dump), None, None, transport);
        r == Validated(run.result, validate) && sent == run.sent && waits == run.waits
    {
      var response;
      response, sent, waits := rest.Patch(routes.accountConfigurations, JObject(dump), transport);
      r := Validated(response, validate);
    }

    /**
     * The account reads carry no payload in the query string; the
     * configuration update carries the dump as the JSON body, never as
     * query parameters. Every call goes to the trading base URL chosen at
     * construction.
     */
    lemma AccountCallsRouting(routes: Routes, dump: map<string, Json>)
      requires rest.Valid()
      ensures var get := rest.PrepareCall("GET", routes.account, JNull, None, None);
        get.Success? && "params" in get.value.opts && get.value.opts["params"] == Data(JNull) && "json" !in get.value.opts
      ensures var patch := rest.PrepareCall("PATCH", routes.accountConfigurations, JObject(dump), None, None);
        && patch.Success? && "json" in patch.value.opts && patch.value.opts["json"] == Data(JObject(dump)) && "params" !in patch.value.opts
        && patch.value.url == rest.baseUrl + "/" + rest.apiVersion + routes.accountConfigurations
    {
      WrapperVerbsRouting();
      rest.PreparedCallContents("GET", routes.account, JNull, None, None);
      rest.PreparedCallContents("PATCH", routes.accountConfigurations, JObject(dump), None, None);
      OptsRouting("GET", DefaultHeaders(rest.Creds(), rest.useBasicAuth).value, JNull);
      OptsRouting("PATCH", DefaultHeaders(rest.Creds(), rest.useBasicAuth).value, JObject(dump));
    }
  }
}
