/**
 * The rule-bearing parts of pypaca/broker/models/accounts.py: the `state`
 * field validator of `Contact`, the before-validator of `TrustedContact`,
 * and `Account.__init__`, which picks the constructor arguments out of the
 * API response by key presence.
 *
 * Pydantic's validation of the nested records against their schemas, and
 * `UUID(...)`, are parameters.
 */
module BrokerAccounts {

  import opened PyValues

  const STATE_REQUIRED := "State is required for country USA."
  const CONTACT_METHOD_REQUIRED := "At least one method of contact required for trusted contact"

  // ---------------------------------------------------------------------
  // Contact

  /** `Contact`'s fields in declaration order. */
  const CONTACT_FIELDS: seq<string> :=
    ["email_address", "phone_number", "street_address", "unit", "city", "state", "postal_code", "country"]

  /** The fields declared before `state`: the only ones a `state` field validator can see. */
  const FIELDS_BEFORE_STATE: set<string> := {"email_address", "phone_number", "street_address", "unit", "city"}

  lemma FieldsBeforeStateInOrder()
    ensures CONTACT_FIELDS[5] == "state" && CONTACT_FIELDS[7] == "country"
    ensures forall i :: 0 <= i < 5 ==> CONTACT_FIELDS[i] in FIELDS_BEFORE_STATE
    ensures "country" !in FIELDS_BEFORE_STATE && "state" !in FIELDS_BEFORE_STATE
  {
  }

  /**
   * `validation.data` when the `state` validator runs: the preceding fields
   * that validated (all of them present, in the best case).
   */
  function ValidatedBefore(input: map<string, Json>): (data: map<string, Json>)
    ensures data.Keys <= FIELDS_BEFORE_STATE
    ensures forall k :: k in data ==> k in input && data[k] == input[k]
  {
    map k | k in input && k in FIELDS_BEFORE_STATE :: input[k]
  }

  /** `usa_state_has_value` as written: it looks for `country` among the data validated so far. */
  function UsaStateHasValueAsWritten(data: map<string, Json>, v: Json): (r: Result<Json>)
    ensures r.Success? ==> r.value == v
    ensures r.Failure? ==> v == JNull && r.error == ValidationError(STATE_REQUIRED)
    ensures "country" !in data ==> r == Success(v)
  {
    if "country" in data && data["country"] == JStr("USA") && v == JNull then Failure(ValidationError(STATE_REQUIRED))
    else Success(v)
  }

  /** The rule as it runs on a contact: only when `state` is given, and only against the earlier fields. */
  function ContactStateAsWritten(input: map<string, Json>): Result<Json> {
    if "state" in input then UsaStateHasValueAsWritten(ValidatedBefore(input), input["state"]) else Success(JNull)
  }

  /** As written, the USA rule never rejects anything: `country` is never among the data it sees. */
  lemma ContactStateAsWrittenNeverFires(input: map<string, Json>)
    ensures ContactStateAsWritten(input).Success?
  {
    assert "country" !in ValidatedBefore(input);
  }

  /** A US contact with a null `state`: the input that shows the rule never fires. */
  const USA_CONTACT_WITHOUT_STATE: map<string, Json> :=
    map["email_address" := JStr("a@b.c"), "street_address" := JArray([JStr("1 Main St")]),
        "city" := JStr("Springfield"), "state" := JNull, "country" := JStr("USA")]

  /** The rule as written accepts that contact; the intended rule rejects it. */
  lemma UsaContactWithoutStateAccepted()
    ensures ContactStateAsWritten(USA_CONTACT_WITHOUT_STATE) == Success(JNull)
    ensures ContactStateRule(USA_CONTACT_WITHOUT_STATE) == Failure(ValidationError(STATE_REQUIRED))
  {
    ContactStateAsWrittenNeverFires(USA_CONTACT_WITHOUT_STATE);
  }

  /** The intended rule: a contact in the USA must have a state. */
  function ContactStateRule(input: map<string, Json>): (r: Result<Json>)
    ensures r.Failure? <==> Get(input, "country") == JStr("USA") && Get(input, "state") == JNull
    ensures r.Failure? ==> r.error == ValidationError(STATE_REQUIRED)
    ensures r.Success? ==> r.value == Get(input, "state")
  {
    if Get(input, "country") == JStr("USA") && Get(input, "state") == JNull then Failure(ValidationError(STATE_REQUIRED))
    else Success(Get(input, "state"))
  }

  /** Contacts outside the USA never need a state; the rule looks at nothing but `country` and `state`. */
  lemma ContactStateRuleScope(input: map<string, Json>, key: string, value: Json)
    requires key != "country" && key != "state"
    ensures Get(input, "country") != JStr("USA") ==> ContactStateRule(input).Success?
    ensures ContactStateRule(input[key := value]) == ContactStateRule(input)
  {
    assert Get(input[key := value], "country") == Get(input, "country");
    assert Get(input[key := value], "state") == Get(input, "state");
  }

  /**
   * Validation of the `contact` entry as the code runs it: the schema check
   * (a parameter), with the `state` validator as written on the submitted
   * object. That validator never rejects, so the schema alone decides.
   */
  function DecodeContact(raw: Json, schema: Json -> Result<Json>): (r: Result<Json>)
    ensures r.Success? ==> schema(raw).Success? && r.value == schema(raw).value
    ensures raw.JObject? && schema(raw).Success? ==> (r.Success? <==> ContactStateAsWritten(raw.fields).Success?)
  {
    var contact :- schema(raw);
    if raw.JObject? then
      var _ :- ContactStateAsWritten(raw.fields);
      Success(contact)
    else Success(contact)
  }

  /** As run by the code, contact validation is the schema check and nothing more. */
  lemma DecodeContactIsSchema(raw: Json, schema: Json -> Result<Json>)
    ensures DecodeContact(raw, schema) == schema(raw)
  {
    if raw.JObject? {
      ContactStateAsWrittenNeverFires(raw.fields);
    }
  }

  /** The corrected validation: the schema check, then the intended state rule. */
  function DecodeContactIntended(raw: Json, schema: Json -> Result<Json>): (r: Result<Json>)
    ensures r.Success? ==> schema(raw).Success? && r.value == schema(raw).value
    ensures raw.JObject? && schema(raw).Success? ==> (r.Success? <==> ContactStateRule(raw.fields).Success?)
  {
    var contact :- schema(raw);
    if raw.JObject? then
      var _ :- ContactStateRule(raw.fields);
      Success(contact)
    else Success(contact)
  }

  /** The two validations part exactly on US contacts without a state. */
  lemma ContactDecodersDiffer(raw: Json, schema: Json -> Result<Json>)
    requires raw.JObject? && schema(raw).Success?
    ensures DecodeContact(raw, schema).Success?
    ensures DecodeContactIntended(raw, schema).Failure? <==>
      Get(raw.fields, "country") == JStr("USA") && Get(raw.fields, "state") == JNull
  {
  }

  // ---------------------------------------------------------------------
  // TrustedContact

  /** `TrustedContact.root_validator`: at least one of phone, street address and e-mail. */
  function ValidateTrustedContact(values: map<string, Json>): (r: Result<map<string, Json>>)
    ensures r.Success? <==>
      IsSet(values, "phone_number") || IsSet(values, "street_address") || IsSet(values, "email_address")
    ensures r.Success? ==> r.value == values
    ensures r.Failure? ==> r.error == ValidationError(CONTACT_METHOD_REQUIRED)
  {
    if IsSet(values, "phone_number") || IsSet(values, "street_address") || IsSet(values, "email_address") then
      Success(values)
    else Failure(ValidationError(CONTACT_METHOD_REQUIRED))
  }

  /** Only the three contact methods matter: the other fields never decide. */
  lemma TrustedContactOtherFieldsIrrelevant(values: map<string, Json>, key: string, value: Json)
    requires key !in {"phone_number", "street_address", "email_address"}
    ensures ValidateTrustedContact(values[key := value]).Success? == ValidateTrustedContact(values).Success?
  {
    assert forall k :: k != key ==> IsSet(values[key := value], k) == IsSet(values, k);
  }

  /**
   * Validation of the `trusted_contact` entry: the before-validator on the
   * submitted object, then the schema check. A value that is not an object
   * makes the validator's key tests raise.
   */
  function DecodeTrustedContact(raw: Json, schema: Json -> Result<Json>): (r: Result<Json>)
    ensures r.Success? ==> raw.JObject? && ValidateTrustedContact(raw.fields).Success? && r == schema(raw)
    ensures raw.JObject? && ValidateTrustedContact(raw.fields).Success? ==> r == schema(raw)
  {
    match raw
    case JObject(values) =>
      var _ :- ValidateTrustedContact(values);
      schema(raw)
    case _ => Failure(TypeError)
  }

  // ---------------------------------------------------------------------
  // Account

  /** The schema checks of the nested records, by field name: `TypeAdapter(...).validate_python`. */
  datatype Schemas = Schemas(
    contact: Json -> Result<Json>,
    identity: Json -> Result<Json>,
    disclosures: Json -> Result<Json>,
    agreements: Json -> Result<Json>,
    documents: Json -> Result<Json>,
    trustedContact: Json -> Result<Json>)

  /** The keyword arguments `Account.__init__` hands to the model. */
  datatype Account = Account(
    id: string,
    accountNumber: Json,
    status: Json,
    cryptoStatus: Json,
    currency: Json,
    lastEquity: Json,
    createdAt: Json,
    contact: Option<Json>,
    identity: Option<Json>,
    disclosures: Option<Json>,
    agreements: Option<Json>,
    documents: Option<Json>,
    trustedContact: Option<Json>)

  /** `response[key]`: a missing key raises `KeyError`. */
  function Required(response: map<string, Json>, key: string): (r: Result<Json>)
    ensures r.Success? <==> key in response
    ensures r.Success? ==> r.value == response[key]
    ensures r.Failure? ==> r.error == KeyError(key)
  {
    if key in response then Success(response[key]) else Failure(KeyError(key))
  }

  /** `decode(response[key]) if key in response else None`: presence, not nullness, decides. */
  function Present(response: map<string, Json>, key: string, decode: Json -> Result<Json>): (r: Result<Option<Json>>)
    ensures key !in response ==> r == Success(None)
    ensures key in response ==> r.Success? == decode(response[key]).Success?
    ensures key in response && r.Success? ==> r.value == Some(decode(response[key]).value)
    ensures key in response && r.Failure? ==> r.error == decode(response[key]).error
  {
    if key in response then
      var v :- decode(response[key]);
      Success(Some(v))
    else Success(None)
  }

  /**
   * `Account.__init__`: the arguments are evaluated in the order written,
   * so the first missing key or failing conversion is the one raised.
   */
  function AccountInit(response: map<string, Json>, parseUuid: Json -> Result<string>, schemas: Schemas)
    : (r: Result<Account>)
    ensures r.Success? ==>
      && "id" in response && parseUuid(response["id"]) == Success(r.value.id)
      && "account_number" in response && r.value.accountNumber == response["account_number"]
      && "status" in response && r.value.status == response["status"]
      && r.value.cryptoStatus == Get(response, "crypto_status")
      && "currency" in response && r.value.currency == response["currency"]
      && "last_equity" in response && r.value.lastEquity == response["last_equity"]
      && "created_at" in response && r.value.createdAt == response["created_at"]
    ensures r.Success? ==>
      && (r.value.contact.Some? <==> "contact" in response)
      && (r.value.identity.Some? <==> "identity" in response)
      && (r.value.disclosures.Some? <==> "disclosures" in response)
      && (r.value.agreements.Some? <==> "agreements" in response)
      && (r.value.documents.Some? <==> "documents" in response)
      && (r.value.trustedContact.Some? <==> "trusted_contact" in response)
    ensures r.Success? <==>
      && "id" in response && parseUuid(response["id"]).Success?
      && "account_number" in response && "status" in response && "currency" in response
      && "last_equity" in response && "created_at" in response
      && ("contact" in response ==> DecodeContact(response["contact"], schemas.contact).Success?)
      && ("identity" in response ==> schemas.identity(response["identity"]).Success?)
      && ("disclosures" in response ==> schemas.disclosures(response["disclosures"]).Success?)
      && ("agreements" in response ==> schemas.agreements(response["agreements"]).Success?)
      && ("documents" in response ==> schemas.documents(response["documents"]).Success?)
      && ("trusted_contact" in response ==>
            DecodeTrustedContact(response["trusted_contact"], schemas.trustedContact).Success?)
    ensures "id" !in response ==> r == Failure(KeyError("id"))
    ensures "id" in response && parseUuid(response["id"]).Failure? ==> r == Failure(parseUuid(response["id"]).error)
  {
    var rawId :- Required(response, "id");
    var id :- parseUuid(rawId);
    var accountNumber :- Required(response, "account_number");
    var status :- Required(response, "status");
    var cryptoStatus := if "crypto_status" in response then response["crypto_status"] else JNull;
    var currency :- Required(response, "currency");
    var lastEquity :- Required(response, "last_equity");
    var createdAt :- Required(response, "created_at");
    var contact :- Present(response, "contact", (raw: Json) => DecodeContact(raw, schemas.contact));
    var identity :- Present(response, "identity", schemas.identity);
    var disclosures :- Present(response, "disclosures", schemas.disclosures);
    var agreements :- Present(response, "agreements", schemas.agreements);
    var documents :- Present(response, "documents", schemas.documents);
    var trustedContact :- Present(response, "trusted_contact", (raw: Json) => DecodeTrustedContact(raw, schemas.trustedContact));
    Success(Account(id, accountNumber, status, cryptoStatus, currency, lastEquity, createdAt,
                    contact, identity, disclosures, agreements, documents, trustedContact))
  }

  /** The required keys, each read unconditionally, in the order the arguments are evaluated. */
  const REQUIRED_KEYS: seq<string> := ["id", "account_number", "status", "currency", "last_equity", "created_at"]

  /** The first required key that is missing is the one whose `KeyError` is raised. */
  lemma FirstMissingKeyRaised(response: map<string, Json>, parseUuid: Json -> Result<string>, schemas: Schemas, i: nat)
    requires i < |REQUIRED_KEYS| && REQUIRED_KEYS[i] !in response
    requires forall j :: 0 <= j < i ==> REQUIRED_KEYS[j] in response
    requires i > 0 ==> "id" in response && parseUuid(response["id"]).Success?
    ensures AccountInit(response, parseUuid, schemas) == Failure(KeyError(REQUIRED_KEYS[i]))
  {
    assert i > 0 ==> REQUIRED_KEYS[0] in response;
    assert i > 1 ==> REQUIRED_KEYS[1] in response;
    assert i > 2 ==> REQUIRED_KEYS[2] in response;
    assert i > 3 ==> REQUIRED_KEYS[3] in response;
    assert i > 4 ==> REQUIRED_KEYS[4] in response;
  }

  /**
   * Presence, not nullness, decides: a null `contact` is still handed to the
   * contact schema (and fails the account if that rejects it), while a null
   * `crypto_status` is kept as `None`.
   */
  lemma PresenceNotNullness(response: map<string, Json>, parseUuid: Json -> Result<string>, schemas: Schemas)
    requires "contact" in response && response["contact"] == JNull
    requires schemas.contact(JNull).Failure?
    ensures AccountInit(response, parseUuid, schemas).Failure?
  {
  }

  /** A response with only the required keys gives an account with every optional part `None`. */
  lemma MinimalAccount(response: map<string, Json>, parseUuid: Json -> Result<string>, schemas: Schemas)
    requires response.Keys == {"id", "account_number", "status", "currency", "last_equity", "created_at"}
    requires parseUuid(response["id"]).Success?
    ensures AccountInit(response, parseUuid, schemas) == Success(Account(
      parseUuid(response["id"]).value, response["account_number"], response["status"], JNull,
      response["currency"], response["last_equity"], response["created_at"], None, None, None, None, None, None))
  {
  }

  /** A nested entry, when present, is exactly what its validation produced. */
  lemma NestedEntriesDecoded(response: map<string, Json>, parseUuid: Json -> Result<string>, schemas: Schemas)
    requires AccountInit(response, parseUuid, schemas).Success?
    ensures var a := AccountInit(response, parseUuid, schemas).value;
      && ("identity" in response ==> a.identity == Some(schemas.identity(response["identity"]).value))
      && ("contact" in response ==> a.contact == Some(schemas.contact(response["contact"]).value))
      && ("trusted_contact" in response ==>
            a.trustedContact == Some(DecodeTrustedContact(response["trusted_contact"], schemas.trustedContact).value))
  {
    if "contact" in response {
      DecodeContactIsSchema(response["contact"], schemas.contact);
    }
  }

  /**
   * An account whose contact is in the USA without a state is built, as long
   * as the contact schema accepts the record, although the intended rule
   * rejects that contact.
   */
  lemma UsaContactAccountAccepted(response: map<string, Json>, parseUuid: Json -> Result<string>, schemas: Schemas)
    requires "id" in response && parseUuid(response["id"]).Success?
    requires "account_number" in response && "status" in response && "currency" in response
    requires "last_equity" in response && "created_at" in response
    requires "contact" in response && response["contact"] == JObject(USA_CONTACT_WITHOUT_STATE)
    requires schemas.contact(response["contact"]).Success?
    requires "identity" !in response && "disclosures" !in response && "agreements" !in response
    requires "documents" !in response && "trusted_contact" !in response
    ensures AccountInit(response, parseUuid, schemas).Success?
    ensures AccountInit(response, parseUuid, schemas).value.contact == Some(schemas.contact(response["contact"]).value)
    ensures DecodeContactIntended(response["contact"], schemas.contact) == Failure(ValidationError(STATE_REQUIRED))
  {
    UsaContactWithoutStateAccepted();
    DecodeContactIsSchema(response["contact"], schemas.contact);
  }
}
