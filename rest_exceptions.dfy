/**
 * `APIError` (pypaca/rest/exceptions.py): classification of an HTTP error
 * response's JSON body against the three known error-body models by exact
 * field-set match, and the `status_code`, `body` and `code` accessors.
 *
 * Pydantic's `TypeAdapter(model).validate_python(payload)` is a parameter:
 * a `Validator` says, for a model and a payload whose keys already match,
 * whether validation succeeds, and if so the `code` of the validated
 * instance.
 */
module RestExceptions {

  import opened PyValues

  datatype ErrorModel = ErrorBody | BuyingPowerErrorBody | PDTErrorBody

  /** The declared field names of each model (`model_fields.keys()`), inherited fields included. */
  function ModelFields(m: ErrorModel): set<string> {
    match m
    case ErrorBody => {"code", "message"}
    case BuyingPowerErrorBody => {"code", "message", "buying_power", "cost_basis"}
    case PDTErrorBody =>
      {"code", "message", "day_trading_buying_power", "max_dtbp_used", "max_dtbp_used_so_far",
       "open_orders", "symbol"}
  }

  /** The order in which `body` tries the models. */
  const Models: seq<ErrorModel> := [ErrorBody, BuyingPowerErrorBody, PDTErrorBody]

  /** `TypeAdapter(model).validate_python(payload)`: `None` for a ValidationError, else the instance's `code`. */
  type Validator = (ErrorModel, map<string, Json>) -> Option<int>

  /** What `body` returns: a validated model instance, or the raw decoded map. */
  datatype Body =
    | Structured(model: ErrorModel, code: int, fields: map<string, Json>)
    | Raw(payload: map<string, Json>)

  /** The three field sets are pairwise distinct, so at most one model can match a payload. */
  lemma ModelFieldsDistinct(m1: ErrorModel, m2: ErrorModel)
    ensures m1 != m2 ==> ModelFields(m1) != ModelFields(m2)
  {
    if m1 != m2 {
      if ErrorBody in {m1, m2} {
        var other := if m1 == ErrorBody then m2 else m1;
        assert "cost_basis" in ModelFields(other) || "symbol" in ModelFields(other);
      } else {
        assert "cost_basis" in ModelFields(BuyingPowerErrorBody) && "cost_basis" !in ModelFields(PDTErrorBody);
      }
    }
  }

  /**
   * The loop of `body`: the first model whose field set equals the payload's
   * key set decides; if its validation fails the raw map is returned at once.
   */
  function FirstMatch(models: seq<ErrorModel>, payload: map<string, Json>, validate: Validator): (b: Body)
    ensures b.Raw? ==> b.payload == payload
    ensures b.Structured? ==>
      && b.model in models
      && ModelFields(b.model) == payload.Keys
      && validate(b.model, payload) == Some(b.code)
      && b.fields == payload
    ensures (forall i :: 0 <= i < |models| ==> ModelFields(models[i]) != payload.Keys) ==> b == Raw(payload)
  {
    if models == [] then Raw(payload)
    else if ModelFields(models[0]) == payload.Keys then
      match validate(models[0], payload)
      case Some(code) => Structured(models[0], code, payload)
      case None => Raw(payload)
    else FirstMatch(models[1..], payload, validate)
  }

  /** The only model whose field set is exactly the payload's keys, if there is one. */
  function MatchingModel(keys: set<string>): (r: Option<ErrorModel>)
    ensures forall m :: ModelFields(m) == keys <==> r == Some(m)
  {
    if keys == ModelFields(ErrorBody) then Some(ErrorBody)
    else if keys == ModelFields(BuyingPowerErrorBody) then
      ModelFieldsDistinct(ErrorBody, BuyingPowerErrorBody);
      Some(BuyingPowerErrorBody)
    else if keys == ModelFields(PDTErrorBody) then
      ModelFieldsDistinct(ErrorBody, PDTErrorBody);
      ModelFieldsDistinct(BuyingPowerErrorBody, PDTErrorBody);
      Some(PDTErrorBody)
    else None
  }

  /** The outcome once the matching model is known: validated instance or raw map. */
  function Decide(m: ErrorModel, payload: map<string, Json>, validate: Validator): Body {
    match validate(m, payload)
    case Some(code) => Structured(m, code, payload)
    case None => Raw(payload)
  }

  /**
   * The search depends only on WHICH models are tried, not on their order:
   * the result is decided by the unique matching model, if it is tried.
   */
  lemma {:induction false} FirstMatchByMatchingModel(models: seq<ErrorModel>, payload: map<string, Json>, validate: Validator)
    ensures FirstMatch(models, payload, validate) ==
      match MatchingModel(payload.Keys)
      case Some(m) => if m in models then Decide(m, payload, validate) else Raw(payload)
      case None => Raw(payload)
  {
    if models != [] {
      FirstMatchByMatchingModel(models[1..], payload, validate);
      if ModelFields(models[0]) != payload.Keys {
        assert forall m :: m in models && m != models[0] ==> m in models[1..];
      }
    }
  }

  /** Any reordering of the three models classifies every payload the same way. */
  lemma PriorityOrderIrrelevant(order: seq<ErrorModel>, payload: map<string, Json>, validate: Validator)
    requires forall m :: m in order <==> m in Models
    ensures FirstMatch(order, payload, validate) == FirstMatch(Models, payload, validate)
  {
    FirstMatchByMatchingModel(order, payload, validate);
    FirstMatchByMatchingModel(Models, payload, validate);
  }

  /** Once a model's keys match, the models after it are never consulted. */
  lemma LaterModelsNotTried(m: ErrorModel, rest1: seq<ErrorModel>, rest2: seq<ErrorModel>,
                            payload: map<string, Json>, validate: Validator)
    requires ModelFields(m) == payload.Keys
    ensures FirstMatch([m] + rest1, payload, validate) == FirstMatch([m] + rest2, payload, validate)
    ensures validate(m, payload).None? ==> FirstMatch([m] + rest1, payload, validate) == Raw(payload)
  {
  }

  /** `json.loads(response.content)` followed by `.keys()`: only a JSON object has keys. */
  function DecodePayload(content: Option<Json>): (r: Result<map<string, Json>>)
    ensures r.Success? <==> content.Some? && content.value.JObject?
    ensures r.Success? ==> r.value == content.value.fields
    ensures content.None? ==> r == Failure(JsonDecodeError)
  {
    match content
    case None => Failure(JsonDecodeError)
    case Some(JObject(m)) => Success(m)
    case Some(_) => Failure(AttributeError)
  }

  /**
   * `APIError.body`: a structured variant exactly when the payload's key set
   * is a model's field set and that model validates it, else the raw map.
   */
  function BodyOf(content: Option<Json>, validate: Validator): (r: Result<Body>)
    ensures r.Success? <==> DecodePayload(content).Success?
    ensures r.Success? && r.value.Structured? <==>
      && DecodePayload(content).Success?
      && MatchingModel(DecodePayload(content).value.Keys).Some?
      && validate(MatchingModel(DecodePayload(content).value.Keys).value, DecodePayload(content).value).Some?
    ensures r.Success? && r.value.Raw? ==> r.value.payload == DecodePayload(content).value
  {
    match DecodePayload(content)
    case Failure(e) => Failure(e)
    case Success(payload) =>
      FirstMatchByMatchingModel(Models, payload, validate);
      Success(FirstMatch(Models, payload, validate))
  }

  /** `APIError.code`: the instance's code, or `int()` of the raw map's `"code"` entry. */
  function CodeOf(content: Option<Json>, validate: Validator): (r: Result<int>)
    ensures BodyOf(content, validate).Failure? ==> r.Failure? && r.error == BodyOf(content, validate).error
    ensures BodyOf(content, validate).Success? && BodyOf(content, validate).value.Structured? ==>
      r == Success(BodyOf(content, validate).value.code)
    ensures BodyOf(content, validate).Success? && BodyOf(content, validate).value.Raw? ==>
      var payload := BodyOf(content, validate).value.payload;
      r == (if "code" in payload then PyInt(payload["code"]) else Failure(TypeError))
  {
    match BodyOf(content, validate)
    case Failure(e) => Failure(e)
    case Success(Structured(_, code, _)) => Success(code)
    case Success(Raw(payload)) =>
      // int(self.body.get("code", None)): int(None) raises TypeError
      if "code" in payload then PyInt(payload["code"]) else Failure(TypeError)
  }

  /**
   * `APIError(http_error)`: the constructor formats `repr`, which reads
   * `body`, so a body that does not decode to a JSON object makes the
   * constructor raise that decoding error instead.
   */
  function NewApiError(status: int, content: Option<Json>): (r: Result<PyError>)
    ensures r.Success? ==> r.value.ApiError? && r.value.status == status
    ensures r.Success? <==> DecodePayload(content).Success?
    ensures r.Failure? ==> r.error == DecodePayload(content).error
  {
    match DecodePayload(content)
    case Failure(e) => Failure(e)
    case Success(payload) => Success(ApiError(status, payload))
  }

  /** `APIError.status_code`: the response's status, passed through. */
  function StatusCode(e: PyError): int
    requires e.ApiError?
  {
    e.status
  }

  /** `APIError.body` of a constructed error: its content decoded once already, so this cannot fail. */
  function ErrorBodyOf(e: PyError, validate: Validator): Body
    requires e.ApiError?
  {
    FirstMatch(Models, e.payload, validate)
  }

  /** Whether construction succeeds does not depend on validation; afterwards `body` is as classified. */
  lemma ConstructedErrorAccessors(status: int, content: Option<Json>, validate: Validator)
    ensures NewApiError(status, content).Success? <==> BodyOf(content, validate).Success?
    ensures NewApiError(status, content).Success? ==>
      && StatusCode(NewApiError(status, content).value) == status
      && BodyOf(content, validate) == Success(ErrorBodyOf(NewApiError(status, content).value, validate))
  {
  }

  /** The generic example: `{"code": 40410000, "message": "asset not found"}` on a 404. */
  lemma GenericErrorExample(validate: Validator)
    requires validate(ErrorBody, map["code" := JInt(40410000), "message" := JStr("asset not found")]) == Some(40410000)
    ensures var content := Some(JObject(map["code" := JInt(40410000), "message" := JStr("asset not found")]));
      && NewApiError(404, content).Success?
      && StatusCode(NewApiError(404, content).value) == 404
      && BodyOf(content, validate).Success? && BodyOf(content, validate).value.Structured?
      && BodyOf(content, validate).value.model == ErrorBody
      && CodeOf(content, validate) == Success(40410000)
  {
    var payload := map["code" := JInt(40410000), "message" := JStr("asset not found")];
    assert payload.Keys == ModelFields(ErrorBody);
  }

  /** A buying-power payload is classified as that model, not as the generic one. */
  lemma BuyingPowerPayloadClassified(payload: map<string, Json>, validate: Validator)
    requires payload.Keys == {"code", "message", "buying_power", "cost_basis"}
    requires validate(BuyingPowerErrorBody, payload).Some?
    ensures BodyOf(Some(JObject(payload)), validate).Success?
    ensures BodyOf(Some(JObject(payload)), validate).value.Structured?
    ensures BodyOf(Some(JObject(payload)), validate).value.model == BuyingPowerErrorBody
  {
    assert payload.Keys == ModelFields(BuyingPowerErrorBody);
  }

  /** A payload with an unknown extra key stays raw, however it would validate. */
  lemma ExtraKeyStaysRaw(payload: map<string, Json>, extra: string, validate: Validator)
    requires "code" in payload && "message" in payload
    requires extra in payload && extra !in ModelFields(PDTErrorBody) && extra !in ModelFields(BuyingPowerErrorBody)
    ensures BodyOf(Some(JObject(payload)), validate) == Success(Raw(payload))
  {
    assert MatchingModel(payload.Keys).None?;
  }
}
