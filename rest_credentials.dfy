/**
 * `Credentials` (pypaca/rest/credentials.py): three optional strings and
 * the after-validator that admits exactly one authentication method. The
 * checks use Python truthiness, so an empty string counts as absent.
 */
module RestCredentials {

  import opened PyValues

  datatype Credentials = Credentials(apiKey: Option<string>, secretKey: Option<string>, oauthToken: Option<string>)

  /**
   * The values the process environment supplies for the three settings
   * (`None` where the variable is unset); pydantic-settings reads them for
   * every field not passed explicitly.
   */
  type Environment = Credentials

  const NO_AUTH_METHOD := "You must supply a method of authentication"
  const BOTH_AUTH_METHODS := "Either an oauth_token or an api_key may be supplied, but not both"
  const MISSING_SECRET_KEY := "A corresponding secret_key must be supplied with the api_key"

  /** The one authentication method the invariant allows. */
  predicate HasOneMethod(c: Credentials) {
    || (Truthy(c.oauthToken) && !Truthy(c.apiKey) && !Truthy(c.secretKey))
    || (!Truthy(c.oauthToken) && Truthy(c.apiKey) && Truthy(c.secretKey))
  }

  /** `Credentials.validate_credentials`: three ordered guards, the first failing one decides. */
  function ValidateCredentials(c: Credentials): (r: Result<Credentials>)
    ensures r.Success? <==> HasOneMethod(c)
    ensures r.Success? ==> r.value == c
    ensures r.Failure? ==> r.error.ValidationError?
  {
    if !Truthy(c.oauthToken) && !Truthy(c.apiKey) then Failure(ValidationError(NO_AUTH_METHOD))
    else if Truthy(c.oauthToken) && (Truthy(c.apiKey) || Truthy(c.secretKey)) then Failure(ValidationError(BOTH_AUTH_METHODS))
    else if !Truthy(c.oauthToken) && !(Truthy(c.apiKey) && Truthy(c.secretKey)) then Failure(ValidationError(MISSING_SECRET_KEY))
    else Success(c)
  }

  /** Which guard rejects which combination, each stated on its own. */
  lemma ValidateCredentialsErrors(c: Credentials)
    ensures !Truthy(c.oauthToken) && !Truthy(c.apiKey) ==>
      ValidateCredentials(c) == Failure(ValidationError(NO_AUTH_METHOD))
    ensures Truthy(c.oauthToken) && (Truthy(c.apiKey) || Truthy(c.secretKey)) ==>
      ValidateCredentials(c) == Failure(ValidationError(BOTH_AUTH_METHODS))
    ensures !Truthy(c.oauthToken) && Truthy(c.apiKey) && !Truthy(c.secretKey) ==>
      ValidateCredentials(c) == Failure(ValidationError(MISSING_SECRET_KEY))
  {
  }

  /** A lone secret key is reported as a missing authentication method, not a missing key. */
  lemma LoneSecretKey(s: string)
    requires s != ""
    ensures ValidateCredentials(Credentials(None, Some(s), None)) == Failure(ValidationError(NO_AUTH_METHOD))
  {
  }

  /** `Credentials()`: every field from the environment. */
  function FromEnvironment(env: Environment): (r: Result<Credentials>)
    ensures r.Success? ==> r.value == env && HasOneMethod(env)
  {
    ValidateCredentials(env)
  }

  /** `Credentials(oauth_token=t)`: the token given, the key pair from the environment. */
  function WithOAuthToken(token: string, env: Environment): (r: Result<Credentials>)
    ensures token != "" ==> (r.Success? <==> !Truthy(env.apiKey) && !Truthy(env.secretKey))
    ensures r.Success? ==> r.value == Credentials(env.apiKey, env.secretKey, Some(token))
  {
    ValidateCredentials(Credentials(env.apiKey, env.secretKey, Some(token)))
  }

  /** `Credentials(api_key=k, secret_key=s)`: the pair given, the token from the environment. */
  function WithKeyPair(apiKey: string, secretKey: string, env: Environment): (r: Result<Credentials>)
    ensures apiKey != "" && secretKey != "" ==> (r.Success? <==> !Truthy(env.oauthToken))
    ensures r.Success? ==> r.value == Credentials(Some(apiKey), Some(secretKey), env.oauthToken)
  {
    ValidateCredentials(Credentials(Some(apiKey), Some(secretKey), env.oauthToken))
  }
}
