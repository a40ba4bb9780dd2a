/**
 * The string-valued enumerations of `pypaca/rest/enums.py`. Each member is
 * a `str`, so the model identifies a member with its value wherever the
 * code concatenates or compares it.
 */
module RestEnums {

  import opened PyValues

  /** The package version, `pypaca.__version__`. */
  const VERSION: string := "0.0.1"

  /** The schemes of the REST and the streaming endpoints. */
  const HTTPS: string := "https://"
  const WSS: string := "wss://"

  datatype BaseURL =
    | BROKER_SANDBOX
    | BROKER_PRODUCTION
    | TRADING_PAPER
    | TRADING_LIVE
    | DATA
    | MARKET_DATA_STREAM
    | TRADING_STREAM_PAPER
    | TRADING_STREAM_LIVE
  {
    function Value(): string {
      match this
      case BROKER_SANDBOX => HTTPS + "broker-api.sandbox.alpaca.markets"
      case BROKER_PRODUCTION => HTTPS + "broker-api.alpaca.markets"
      case TRADING_PAPER => HTTPS + "paper-api.alpaca.markets"
      case TRADING_LIVE => HTTPS + "api.alpaca.markets"
      case DATA => HTTPS + "data.alpaca.markets"
      case MARKET_DATA_STREAM => WSS + "stream.data.alpaca.markets"
      case TRADING_STREAM_PAPER => WSS + "paper-api.alpaca.markets/stream"
      case TRADING_STREAM_LIVE => WSS + "api.alpaca.markets/stream"
    }

    predicate IsStream() {
      this == MARKET_DATA_STREAM || this == TRADING_STREAM_PAPER || this == TRADING_STREAM_LIVE
    }
  }

  const AllBaseURLs: seq<BaseURL> := [BROKER_SANDBOX, BROKER_PRODUCTION, TRADING_PAPER, TRADING_LIVE,
                                      DATA, MARKET_DATA_STREAM, TRADING_STREAM_PAPER, TRADING_STREAM_LIVE]

  predicate StartsWith(s: string, prefix: string) {
    |prefix| <= |s| && s[..|prefix|] == prefix
  }

  /**
   * The shape of every base URL: a REST base is `https://`, a stream base is
   * `wss://`, and none ends with `/`, so `base + "/" + version` has exactly
   * one slash at the join.
   */
  lemma BaseURLShape(u: BaseURL)
    ensures u.Value() != [] && u.Value()[|u.Value()| - 1] != '/'
    ensures !u.IsStream() ==> StartsWith(u.Value(), "https://")
    ensures u.IsStream() ==> StartsWith(u.Value(), "wss://")
  {
  }

  /** The values are pairwise distinct; in particular paper != live and sandbox != production. */
  lemma BaseURLValuesDistinct(u: BaseURL, v: BaseURL)
    ensures u != v ==> u.Value() != v.Value()
  {
    // Two values of one length are the paper trading base and the market data stream, whose schemes differ.
    if u != v {
      assert |u.Value()| != |v.Value()| || u.Value()[0] != v.Value()[0];
    }
  }

  datatype PaginationType = NONE | FULL | ITERATOR {
    function Value(): string {
      match this
      case NONE => "none"
      case FULL => "full"
      case ITERATOR => "iterator"
    }
  }

  /** `PaginationType(value)`: the member whose value is `value`, if any. */
  function PaginationTypeOf(value: string): (r: Option<PaginationType>)
    ensures r.Some? ==> r.value.Value() == value
    ensures value in {"none", "full", "iterator"} <==> r.Some?
  {
    if value == "none" then Some(NONE)
    else if value == "full" then Some(FULL)
    else if value == "iterator" then Some(ITERATOR)
    else None
  }

  /** Exactly three members, told apart by their values. */
  lemma PaginationTypeRoundTrip(p: PaginationType)
    ensures PaginationTypeOf(p.Value()) == Some(p)
  {
  }

  datatype Sort = ASC | DESC {
    function Value(): string {
      match this
      case ASC => "asc"
      case DESC => "desc"
    }
  }

  lemma SortValues()
    ensures ASC.Value() == "asc" && DESC.Value() == "desc" && ASC.Value() != DESC.Value()
  {
  }

  /** The currencies supported for local currency trading, in declaration order. */
  const SupportedCurrencies: seq<string> :=
    ["USD", "GBP", "CHF", "EUR", "CAD", "JPY", "TRY", "AUD", "CZK",
     "SEK", "DKK", "SGD", "HKD", "HUF", "NZD", "NOK", "PLN"]

  predicate IsCurrencyCode(c: string) {
    |c| == 3 && forall i :: 0 <= i < 3 ==> 'A' <= c[i] <= 'Z'
  }

  /** Seventeen distinct three-letter upper-case codes. */
  lemma SupportedCurrenciesShape()
    ensures |SupportedCurrencies| == 17
    ensures forall i :: 0 <= i < 17 ==> IsCurrencyCode(SupportedCurrencies[i])
    ensures forall i, j :: 0 <= i < j < 17 ==> SupportedCurrencies[i] != SupportedCurrencies[j]
  {
  }
}
