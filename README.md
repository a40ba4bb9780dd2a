# pypaca core in Dafny

This is a model of the request/response core of pypaca, a Python client for the Alpaca trading and broker APIs. It covers:

- how a `RestClient` resolves its credentials from arguments and the environment;
- how it composes the URL and picks one authentication header (Bearer token, HTTP Basic, or the key-id/secret-key pair);
- how it routes the payload into query parameters or the JSON body;
- the bounded retry loop around single HTTP exchanges;
- how an HTTP error body is classified into one of three error models, or kept raw;
- pagination of page iterators;
- the small validators and dict rewrites of the trading and broker models.

Modules follow the source files:

- `PyValues`: Python values: `None`/`Option`, truthiness, JSON, exceptions, `int()`
- `Encoding`: `str.encode()` (UTF-8) and `base64.b64encode`, with a decoder
- `RestEnums`: `src/pypaca/rest/enums.py`, `__version__`
- `RestCredentials`: `src/pypaca/rest/credentials.py`
- `RestExceptions`: `src/pypaca/rest/exceptions.py`
- `Rest`: `src/pypaca/rest/rest.py`
- `RestPagination`: `src/pypaca/rest/pagination.py`
- `TradingClient`: `src/pypaca/trading/client.py`
- `TradingRequests`: `src/pypaca/trading/requests.py`
- `BrokerAccounts`: `src/pypaca/broker/models/accounts.py`
- `TradingModels`: `src/pypaca/trading/models.py`

Modelling choices:

- **Transport.** The HTTP session is an input sequence of the responses it would return. Running out of responses stands for the session raising (`TransportError`). `raise_for_status` is the 400–599 test.
- **Sleeps.** `time.sleep(retry_wait)` is recorded in a returned log of waits.
- **Environment.** The environment read by `BaseSettings` is an explicit `Credentials` record. Explicitly passed arguments override it field by field.
- **Oracles.** Pydantic's `TypeAdapter(...).validate_python`, `UUID(...)`, `pd.Timestamp(...).date()` and `datetime.strptime(...).astimezone()` are function-valued parameters.
- **`RestClient` as a class.** It holds `const` fields, because `__init__` sets them once and nothing mutates them. `_request` is a `while` loop proved against the recursive function `Dispatch`.
- **Iterator.** The iterator handed to `return_paginated_result` is a cursor class, so the model can state how many pages were pulled.

Where the code and its own documentation disagree, the model follows the code:

- **Retry exhaustion.** When every response is retryable, `_request` raises `APIError` on the attempt made with counter 0. It does not return `None` (`src/pypaca/rest/rest.py:212-215`). The `return None` at line 138 is reached only with a negative `retry_attempts`, and then no request is sent.
- **Watchlist updates.** `UpdateWatchlistRequest` accepts `name` and `symbols` together, although its docstring says "but not both".
- **Trailing-stop validator.** `TrailingStopOrderRequest` declares its validator under the same name as `OrderRequest`'s. The model assumes pydantic's override-by-name rule, so for trailing stops only the trail rule runs, and `qty` together with `notional` is not rejected.
- **Contact state rule.** `Contact.usa_state_has_value` is modelled as written, so it never rejects (see "## Findings"). `DecodeContact`, and through it `AccountInit`, accept a US contact with a null state. The rule the validator evidently intends is modelled beside it as `ContactStateRule` and `DecodeContactIntended`, and the gap between the two is proved.

## Model

| member | source | states |
|---|---|---|
| `PyValues.PyInt` | src/pypaca/rest/exceptions.py:142 | `int(v)` of a decoded JSON value: an integer is itself, `None`/list/dict raise TypeError, a string converts exactly when it is a decimal literal |
| `PyValues.ParseIntOfIntToString` | src/pypaca/rest/exceptions.py:142 | `int(str(n)) == n`: the string conversion inverts decimal printing |
| `Encoding.Base64RoundTrip` | src/pypaca/rest/rest.py:171-172 | decoding the base 64 of any byte string gives the bytes back (RFC 4648 section 4) |
| `Encoding.Base64Alphabet` | src/pypaca/rest/rest.py:172 | every character of the encoding is an alphabet symbol or the pad `=` |
| `Encoding.Utf8Append` | src/pypaca/rest/rest.py:171 | UTF-8 of a concatenation is the concatenation of the encodings |
| `RestEnums.BaseURLShape` | src/pypaca/rest/enums.py:30-37 | no base URL ends in `/`; REST bases start with `https://`, stream bases with `wss://` |
| `RestEnums.BaseURLValuesDistinct` | src/pypaca/rest/enums.py:30-37 | distinct members have distinct URLs (paper ≠ live, sandbox ≠ production) |
| `RestEnums.PaginationTypeOf` | src/pypaca/rest/enums.py:52-54 | the member with a given value exists exactly for "none", "full", "iterator" |
| `RestEnums.PaginationTypeRoundTrip` | src/pypaca/rest/enums.py:52-54 | each member is recovered from its value |
| `RestEnums.SortValues` | src/pypaca/rest/enums.py:67-68 | ASC is "asc", DESC is "desc" |
| `RestEnums.SupportedCurrenciesShape` | src/pypaca/rest/enums.py:78-94 | 17 distinct three-letter upper-case codes |
| `RestCredentials.ValidateCredentials` | src/pypaca/rest/credentials.py:13-24 | succeeds iff exactly one method (token alone, or key and secret without token), returning the object unchanged; every failure is a validation error |
| `RestCredentials.ValidateCredentialsErrors` | src/pypaca/rest/credentials.py:16-23 | which ordered guard fires for which combination, with its message |
| `RestCredentials.LoneSecretKey` | src/pypaca/rest/credentials.py:16-17 | a secret key alone is reported as no authentication method |
| `RestCredentials.FromEnvironment` | src/pypaca/rest/credentials.py:6-11 | `Credentials()` takes every field from the environment and admits only one method |
| `RestCredentials.WithOAuthToken` | src/pypaca/rest/credentials.py:6-24 | with a token given, success iff the environment has no key and no secret |
| `RestCredentials.WithKeyPair` | src/pypaca/rest/credentials.py:6-24 | with a pair given, success iff the environment has no token |
| `RestExceptions.ModelFieldsDistinct` | src/pypaca/rest/exceptions.py:12-33 | the three error models' field sets are pairwise distinct |
| `RestExceptions.FirstMatch` | src/pypaca/rest/exceptions.py:128-134 | a structured body only for a model whose field set equals the payload's keys and that validates it; otherwise the raw map unchanged |
| `RestExceptions.MatchingModel` | src/pypaca/rest/exceptions.py:128-129 | at most one model's field set equals a given key set |
| `RestExceptions.FirstMatchByMatchingModel` | src/pypaca/rest/exceptions.py:123-134 | the search result depends only on the unique matching model and whether it is tried |
| `RestExceptions.PriorityOrderIrrelevant` | src/pypaca/rest/exceptions.py:123-129 | any order of the three models classifies every payload the same way |
| `RestExceptions.LaterModelsNotTried` | src/pypaca/rest/exceptions.py:130-133 | once keys match, later models are never consulted and a failed validation returns the raw map |
| `RestExceptions.DecodePayload` | src/pypaca/rest/exceptions.py:122 | only content that decodes to a JSON object yields a payload; undecodable content raises a decode error |
| `RestExceptions.BodyOf` | src/pypaca/rest/exceptions.py:119-134 | `body` is structured iff the keys match a model that validates the payload, raw (unchanged) otherwise, and a function of the content alone |
| `RestExceptions.CodeOf` | src/pypaca/rest/exceptions.py:136-143 | a structured body's code; `int()` of a raw map's `code`; TypeError when it has none |
| `RestExceptions.NewApiError` | src/pypaca/rest/exceptions.py:61-100 | construction runs `repr` and hence `body`: it fails with the decode error exactly when the content is not a JSON object, and keeps the status |
| `RestExceptions.ConstructedErrorAccessors` | src/pypaca/rest/exceptions.py:114-134 | construction succeeds iff `body` can be read; `status_code` is the response status |
| `RestExceptions.GenericErrorExample` | src/pypaca/rest/exceptions.py:136-140 | a 404 with `{"code": 40410000, "message": …}` is an `ErrorBody` with code 40410000 |
| `RestExceptions.BuyingPowerPayloadClassified` | src/pypaca/rest/exceptions.py:29-33 | a buying-power payload is that model, not the generic one |
| `RestExceptions.ExtraKeyStaysRaw` | src/pypaca/rest/exceptions.py:134 | an unknown extra key keeps the payload raw whatever validation says |
| `Rest.ResolveCredentials` | src/pypaca/rest/rest.py:48-60 | token with key or secret, and a lone key or secret, raise ValueError; all absent reads the environment; any result admits exactly one method |
| `Rest.ExplicitCredentialsWin` | src/pypaca/rest/rest.py:50-60 | a given token or pair becomes the client's, and the environment matters only through the fields not given |
| `Rest.AuthHeadersSchemes` | src/pypaca/rest/rest.py:156-180 | exactly one scheme, priority token > Basic > key pair; "Invalid API credentials." iff none applies |
| `Rest.ValidCredentialsHaveHeaders` | src/pypaca/rest/rest.py:140-180 | a client with validated credentials always gets headers, with `User-Agent: APCA-PY/0.0.1` |
| `Rest.DefaultHeadersExtendAuth` | src/pypaca/rest/rest.py:150-154 | default headers are the auth headers plus `User-Agent`, auth entries unchanged |
| `Rest.BasicHeaderDecodes` | src/pypaca/rest/rest.py:170-173 | the Basic value is `"Basic "` followed by a base 64 text decoding to UTF-8 of key, `:`, secret (RFC 7617 section 2) |
| `Rest.BearerHeaderCarriesToken` | src/pypaca/rest/rest.py:168-169 | the Bearer value is `"Bearer "` followed by the token unaltered (RFC 6750 section 2.1) |
| `Rest.OptsRouting` | src/pypaca/rest/rest.py:115-127 | `params` for GET/DELETE in any case, `json` otherwise, never both; headers kept; redirects always off |
| `Rest.WrapperVerbsRouting` | src/pypaca/rest/rest.py:221-298 | GET and DELETE send params, POST, PUT and PATCH send a JSON body |
| `Rest.JoinUrlParts` | src/pypaca/rest/rest.py:111 | the URL splits back into base, one `/`, version and path |
| `Rest.EnumeratedBaseSingleSlash` | src/pypaca/rest/rest.py:111 | for an enumerated base the join has exactly one `/` |
| `Rest.OneRequest` | src/pypaca/rest/rest.py:206-219 | RetryError iff an error status in the retry codes with counter > 0; other errors raise the APIError (or its construction error); a success returns decoded JSON or `None` for empty text |
| `Rest.DispatchCounts` | src/pypaca/rest/rest.py:129-138 | at most `retry + 1` requests, one sleep between consecutive requests, no request and `None` only for a negative counter |
| `Rest.ExhaustionRaises` | src/pypaca/rest/rest.py:212-215 | if all responses are retryable, the counter-0 attempt raises the last response's APIError after `retry` sleeps |
| `Rest.NonRetryableErrorStops` | src/pypaca/rest/rest.py:209-215 | a non-retryable error raises on that attempt: one request, no sleep |
| `Rest.SuccessReturns` | src/pypaca/rest/rest.py:217-219 | a success returns the decoded JSON, or `None` for an empty body |
| `Rest.RestClient.constructor` | src/pypaca/rest/rest.py:61-73 | the resolved credentials and the settings are stored as given |
| `Rest.RestClient.Create` | src/pypaca/rest/rest.py:19-73 | construction fails exactly when credential resolution raises; a built client is valid and holds the settings |
| `Rest.RestClient.UrlFallback` | src/pypaca/rest/rest.py:109-111 | empty or missing base and version overrides fall back to the client's own |
| `Rest.RestClient.GetAuthHeaders` | src/pypaca/rest/rest.py:156-180 | the dict filled entry by entry equals the specified scheme selection |
| `Rest.RestClient.GetDefaultHeaders` | src/pypaca/rest/rest.py:140-154 | auth headers with the user agent added |
| `Rest.RestClient.PrepareRequest` | src/pypaca/rest/rest.py:109-127 | the URL, headers and options built step by step are the specified prepared call, or the credential error |
| `Rest.RestClient.Request` | src/pypaca/rest/rest.py:75-138 | the loop's result, the calls sent, and the waits equal the specification: the same call repeated once per attempt, a `retry_wait` sleep between attempts |
| `Rest.RestClient.RequestShape` | src/pypaca/rest/rest.py:113-137 | for a valid client every request is the one prepared call, at most `retry + 1` of them and one fewer sleeps |
| `Rest.RestClient.PreparedCallContents` | src/pypaca/rest/rest.py:109-127 | the call carries the composed URL, the default headers, redirects off, and the payload routed by verb |
| `Rest.RestClient.Get` | src/pypaca/rest/rest.py:221-235 | `_request("GET", …)` with the base URL and version overrides |
| `Rest.RestClient.Post` | src/pypaca/rest/rest.py:237-251 | `_request("POST", …)` |
| `Rest.RestClient.Put` | src/pypaca/rest/rest.py:253-267 | `_request("PUT", …)` |
| `Rest.RestClient.Patch` | src/pypaca/rest/rest.py:269-283 | `_request("PATCH", …)` |
| `Rest.RestClient.Delete` | src/pypaca/rest/rest.py:285-298 | `_request("DELETE", …)` |
| `RestPagination.ValidatePagination` | src/pypaca/rest/pagination.py:10-19 | a missing mode is FULL; a limit (0 included) with a mode other than FULL raises; otherwise the mode unchanged |
| `RestPagination.ValidatePaginationCases` | src/pypaca/rest/pagination.py:14-18 | the boundary cases: limit 0 counts, FULL takes any limit, no limit suits any mode |
| `RestPagination.ValidatePaginationIdempotent` | src/pypaca/rest/pagination.py:14-19 | re-validating a validated mode gives it back |
| `RestPagination.FlattenAppend` | src/pypaca/rest/pagination.py:31 | flattening maps concatenation of page lists to concatenation of items |
| `RestPagination.FlattenLength` | src/pypaca/rest/pagination.py:31 | the flat list is as long as all pages together |
| `RestPagination.FlattenMembers` | src/pypaca/rest/pagination.py:31 | an item is in the flat list iff it is on some page |
| `RestPagination.PageCursor.Next` | src/pypaca/rest/pagination.py:28 | the next page and one step forward, or StopIteration with nothing pulled |
| `RestPagination.Drain` | src/pypaca/rest/pagination.py:31 | the loop returns the in-order concatenation of the remaining pages and drains the iterator |
| `RestPagination.ReturnPaginatedResult` | src/pypaca/rest/pagination.py:22-34 | NONE pulls exactly one page (StopIteration when empty), FULL drains and flattens, ITERATOR returns the same cursor unconsumed, anything else raises ValueError |
| `TradingClient.TradingBaseUrl` | src/pypaca/trading/client.py:28 | sandbox selects the paper URL, otherwise the live URL |
| `TradingClient.Validated` | src/pypaca/trading/client.py:50 | the response is validated only when the request returned |
| `TradingClient.TradingClient.Create` | src/pypaca/trading/client.py:15-38 | base URL by sandbox, version always "v2", credentials and retry settings forwarded unchanged |
| `TradingClient.TradingClient.CreateWithDefaults` | src/pypaca/trading/client.py:17-24 | the defaults: environment credentials, paper trading, 3 attempts, 3 seconds, codes (429, 504) |
| `TradingClient.TradingClient.GetAccount` | src/pypaca/trading/client.py:40-50 | a GET of the account route, then validation |
| `TradingClient.TradingClient.GetAccountConfigurations` | src/pypaca/trading/client.py:52-65 | a GET of the configurations route, then validation |
| `TradingClient.TradingClient.SetAccountConfigurations` | src/pypaca/trading/client.py:67-84 | a PATCH of the configurations route with the request's dump |
| `TradingClient.TradingClient.AccountCallsRouting` | src/pypaca/trading/client.py:50-83 | reads send no JSON body; the update sends the dump as JSON body, never as params, to the trading URL |
| `TradingRequests.ExactlyOne` | src/pypaca/trading/requests.py:307-315 | succeeds iff exactly one of two keys is set (present and not null), returning the dict unchanged, with the none/both message otherwise |
| `TradingRequests.ValidateClosePosition` | src/pypaca/trading/requests.py:67-83 | accepted iff exactly one of `qty`/`percentage` is not None; the dict unchanged |
| `TradingRequests.ValidateUpdateWatchlist` | src/pypaca/trading/requests.py:142-151 | accepted iff at least one of `name`/`symbols` is set; the dict unchanged |
| `TradingRequests.WatchlistAcceptsBoth` | src/pypaca/trading/requests.py:144-151 | both fields together are accepted |
| `TradingRequests.ValidateCorporateAnnouncements` | src/pypaca/trading/requests.py:506-516 | a pass returns the dict unchanged; a failure is a date conversion error (`since` first) or the 90-day limit; a date that converts to NaT never rejects |
| `TradingRequests.ValidateOrder` | src/pypaca/trading/requests.py:303-315 | accepted iff exactly one of `qty`/`notional` is set; the dict unchanged |
| `TradingRequests.ValidateTrailingStop` | src/pypaca/trading/requests.py:466-480 | accepted iff exactly one of `trail_percent`/`trail_price` is set; the dict unchanged |
| `TradingRequests.BeforeValidator` | src/pypaca/trading/requests.py:466-468 | a trailing stop is decided by the trail rule alone, every other order by the qty/notional rule; the dict unchanged |
| `TradingRequests.MissingEqualsNull` | src/pypaca/trading/requests.py:307-308 | a missing key and an explicit null decide the same way |
| `TradingRequests.OrderInit` | src/pypaca/trading/requests.py:339-464 | the subclass type overwrites any caller `type`, other entries are kept, and the subclass's validator decides on the updated dict |
| `TradingRequests.CallerTypeIgnored` | src/pypaca/trading/requests.py:340 | whatever `type` was passed, the result carries the class's type; the five types are distinct |
| `TradingRequests.TrailingStopSkipsQuantityRule` | src/pypaca/trading/requests.py:466-480 | a trailing stop with both qty and notional passes, a market order does not |
| `TradingRequests.CorporateAnnouncementsWindow` | src/pypaca/trading/requests.py:506-516 | with both dates, accepted iff `until - since <= 90`, the dict unchanged |
| `TradingRequests.CorporateAnnouncementsBoundaries` | src/pypaca/trading/requests.py:513-514 | exactly 90 days passes, 91 fails, a reversed range passes |
| `TradingRequests.CorporateAnnouncementsUnset` | src/pypaca/trading/requests.py:510-514 | a not-a-time side never rejects; `since` is parsed first |
| `BrokerAccounts.FieldsBeforeStateInOrder` | src/pypaca/broker/models/accounts.py:40-47 | `country` is declared after `state`, so it is not among the fields seen by `state`'s validator |
| `BrokerAccounts.ValidatedBefore` | src/pypaca/broker/models/accounts.py:67 | the validator's data holds only earlier fields, with their values |
| `BrokerAccounts.UsaStateHasValueAsWritten` | src/pypaca/broker/models/accounts.py:49-70 | the validator returns the state unchanged or rejects a null state with "State is required for country USA.", and never rejects when `country` is not among the data it is shown |
| `BrokerAccounts.ContactStateAsWrittenNeverFires` | src/pypaca/broker/models/accounts.py:49-70 | as written, the USA rule never rejects |
| `BrokerAccounts.UsaContactWithoutStateAccepted` | src/pypaca/broker/models/accounts.py:67-70 | a US contact with null state passes as written and fails under the intended rule |
| `BrokerAccounts.ContactStateRule` | src/pypaca/broker/models/accounts.py:67-70 | the intended rule: fails iff country is "USA" and state is None |
| `BrokerAccounts.ContactStateRuleScope` | src/pypaca/broker/models/accounts.py:68 | only `country` and `state` matter |
| `BrokerAccounts.DecodeContact` | src/pypaca/broker/models/accounts.py:258-262 | the schema check followed by the state validator as written: a result is always the schema's, and for an object the decode succeeds iff the as-written rule does |
| `BrokerAccounts.DecodeContactIsSchema` | src/pypaca/broker/models/accounts.py:258-262 | as written, decoding a contact is exactly its schema check |
| `BrokerAccounts.DecodeContactIntended` | src/pypaca/broker/models/accounts.py:67-70 | under the intended rule, a contact validates iff its schema check and the state rule both pass |
| `BrokerAccounts.ContactDecodersDiffer` | src/pypaca/broker/models/accounts.py:67-70 | for a schema-valid object, the as-written decode succeeds, and the intended one fails iff country is "USA" and state is None |
| `BrokerAccounts.UsaContactAccountAccepted` | src/pypaca/broker/models/accounts.py:249-262 | an account whose contact is in the USA with a null state is accepted and carries that contact, while the intended rule would reject it |
| `BrokerAccounts.ValidateTrustedContact` | src/pypaca/broker/models/accounts.py:196-207 | accepted iff a phone, street address or e-mail is set; the dict unchanged |
| `BrokerAccounts.TrustedContactOtherFieldsIrrelevant` | src/pypaca/broker/models/accounts.py:200-204 | no other field decides |
| `BrokerAccounts.DecodeTrustedContact` | src/pypaca/broker/models/accounts.py:283-287 | the before-validator runs on the object before the schema check |
| `BrokerAccounts.Required` | src/pypaca/broker/models/accounts.py:251-257 | `response[key]` raises KeyError exactly when the key is missing |
| `BrokerAccounts.Present` | src/pypaca/broker/models/accounts.py:258-287 | None exactly when the key is absent; a present key, null or not, is decoded |
| `BrokerAccounts.AccountInit` | src/pypaca/broker/models/accounts.py:249-288 | succeeds iff every required key is present, the id parses, and each present nested part decodes; scalar fields copied verbatim, `crypto_status` null when absent, each nested part present iff its key is; a missing or unparsable id raises first |
| `BrokerAccounts.FirstMissingKeyRaised` | src/pypaca/broker/models/accounts.py:251-257 | the first missing required key in evaluation order is the KeyError raised |
| `BrokerAccounts.PresenceNotNullness` | src/pypaca/broker/models/accounts.py:258-262 | a null `contact` still goes to the decoder and can fail the account |
| `BrokerAccounts.MinimalAccount` | src/pypaca/broker/models/accounts.py:249-288 | only the required keys give an account with every optional part None |
| `BrokerAccounts.NestedEntriesDecoded` | src/pypaca/broker/models/accounts.py:258-287 | a present nested part is exactly what its validation produced; for the contact that is its schema's value |
| `TradingModels.OrderInit` | src/pypaca/trading/models.py:248-252 | a missing or empty `order_class` becomes "simple", any other value (None included) is kept, no other key changes |
| `TradingModels.DefaultedOrderProperties` | src/pypaca/trading/models.py:249-250 | the default is idempotent and never applies to None |
| `TradingModels.Combine` | src/pypaca/trading/models.py:371 | `date + " " + time` for two strings, TypeError otherwise |
| `TradingModels.Rewrite` | src/pypaca/trading/models.py:370-376 | no rewrite unless `date` and the key are both present; otherwise the parser's result on the combined text |
| `TradingModels.CalendarInit` | src/pypaca/trading/models.py:363-378 | open rewritten first, then close, the first failure raised; on success the rewritten dict |
| `TradingModels.RewrittenShape` | src/pypaca/trading/models.py:370-376 | same keys, `date` and others unchanged, `open`/`close` parsed iff `date` is present |
| `TradingModels.RewritesIndependent` | src/pypaca/trading/models.py:370-376 | neither rewrite depends on the other's entry |
| `TradingModels.ParserInput` | src/pypaca/trading/models.py:371-372 | the parser receives date, one space and time, with format "%Y-%m-%d %H:%M" |
| `TradingModels.NonStringRaises` | src/pypaca/trading/models.py:371 | a non-string date or time raises TypeError before parsing |

## Left out

- The HTTP session, `raise_for_status` and `response.json()` are replaced by an input sequence of responses, which is consumed in order.
- HTTP redirects, TLS and the process environment's `.env` files are out of scope.
- `Session()` creation is not modelled.
- Pydantic's schema validation and type coercion are function parameters. This covers the nested account records, the error-body models, and the field validation after every before-validator. Pydantic's aggregation of several errors into one `ValidationError` is not modelled.
- `APIError.request`, `APIError.response`, `__repr__`'s `pprint` text and the `http_error` chaining are not modelled. Only the fact that the constructor evaluates `body` is.
- The final `return int(json.loads(...)["code"])` of `APIError.code` is not modelled. `body` is always a model or a dict, so that line is unreachable.
- `response_wrapper` is a one-line foreign constructor call and is not modelled.
- `src/pypaca/rest/client.py` is an abstract base with empty bodies and is not modelled.
- The route strings of `Routes` are a parameter, because the route enums are not part of this model.
- The order type values ("market", "stop", "limit", "stop_limit", "trailing_stop") and "simple" for the order class are inputs to this model, because the trading enums are not part of it.
- `datetime.strptime(...).astimezone()` and the `pd.Timestamp(...).date()` conversion are parameters, because their results are time-zone and library dependent.
- Float fields are carried as opaque JSON values; nothing computes on them.
- PyValues.Upper: upper-cases ASCII letters only, not all of Unicode's case mapping. No non-ASCII character upper-cases into a letter of "GET" or "DELETE", so routing is unaffected.
- PyValues.PyInt: models `int()` on decimal literals with optional sign, underscores and ASCII whitespace (blank, tab, line breaks, U+000B, U+000C and U+001C to U+001F). It does not model NaN or infinite floats, non-ASCII digits, or non-ASCII whitespace such as U+0085 and U+00A0.
- Encoding.Utf8: takes Unicode scalar values only, so Python's error on lone surrogates has no counterpart.
- BrokerAccounts.AccountInit: returns the keyword arguments it builds. The final `super().__init__(**kwargs)` pydantic validation of the scalar fields (accounts.py:288) is not modelled.
- BrokerAccounts.DecodeTrustedContact: a non-object value raises TypeError in the model. In Python a string value would be searched for the key as a substring first.
- RestPagination.ReturnPaginatedResult: the invalid-mode message is modelled for plain strings. An enum member of another type would format differently.

## Findings

| source | as written | input that shows it | evidently intended | confidence | as-written member | corrected member |
|---|---|---|---|---|---|---|
| src/pypaca/broker/models/accounts.py:67-70 | `usa_state_has_value` looks for `country` in `validation.data`. That dict holds only the fields declared before `state`, and `country` is declared after it (line 47). The rule therefore never rejects. | `{"email_address": "a@b.c", "street_address": ["1 Main St"], "city": "Springfield", "state": null, "country": "USA"}` is accepted | a contact whose country is "USA" must have a state | not executed | `BrokerAccounts.UsaContactAccountAccepted` | `BrokerAccounts.DecodeContactIntended` |
