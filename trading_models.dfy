/**
 * The two constructors of pypaca/trading/models.py that rewrite the raw
 * keyword dict before pydantic validates it: `Order.__init__` defaults the
 * order class, and `Calendar.__init__` turns the `open` and `close` times
 * of day into timestamps on the calendar's date.
 *
 * `datetime.strptime(...).astimezone()` is a parameter yielding a value of
 * an arbitrary type `D`; pydantic validation after the rewrite is not
 * modelled.
 */
module TradingModels {

  import opened PyValues

  /** `OrderClass.SIMPLE` */
  const SIMPLE := "simple"

  /** The format the calendar's date and time are parsed with. */
  const CALENDAR_FORMAT := "%Y-%m-%d %H:%M"

  // ---------------------------------------------------------------------
  // Order

  /** Whether `Order.__init__` replaces the order class: missing, or the empty string. */
  predicate NeedsDefaultClass(data: map<string, Json>) {
    "order_class" !in data || data["order_class"] == JStr("")
  }

  /** `Order.__init__`: default a missing or empty `order_class` to SIMPLE, in place. */
  method OrderInit(data: map<string, Json>) returns (fields: map<string, Json>)
    ensures fields.Keys == data.Keys + {"order_class"}
    ensures NeedsDefaultClass(data) ==> fields["order_class"] == JStr(SIMPLE)
    ensures !NeedsDefaultClass(data) ==> fields == data
    ensures forall k :: k in data && k != "order_class" ==> fields[k] == data[k]
  {
    fields := data;
    if "order_class" !in fields || fields["order_class"] == JStr("") {
      fields := fields["order_class" := JStr(SIMPLE)];
    }
  }

  /** The function the constructor computes, for reasoning across calls. */
  function DefaultedOrder(data: map<string, Json>): map<string, Json> {
    if NeedsDefaultClass(data) then data["order_class" := JStr(SIMPLE)] else data
  }

  /** Applying the default twice is applying it once, and `None` is not defaulted. */
  lemma DefaultedOrderProperties(data: map<string, Json>)
    ensures DefaultedOrder(DefaultedOrder(data)) == DefaultedOrder(data)
    ensures !NeedsDefaultClass(DefaultedOrder(data))
    ensures "order_class" in data && data["order_class"] == JNull ==> DefaultedOrder(data) == data
  {
  }

  // ---------------------------------------------------------------------
  // Calendar

  /** `strptime(text, format).astimezone()`, or the ValueError of a text that does not match. */
  type Parser<D> = (string, string) -> Result<D>

  /** A value of the rewritten dict: as received, or a parsed timestamp. */
  datatype CalendarValue<D> = Raw(json: Json) | Parsed(moment: D)

  /** `data["date"] + " " + data[key]`: only two strings concatenate. */
  function Combine(date: Json, time: Json): (r: Result<string>)
    ensures r.Success? <==> date.JStr? && time.JStr?
    ensures r.Success? ==> r.value == date.s + " " + time.s
    ensures r.Failure? ==> r.error == TypeError
  {
    if date.JStr? && time.JStr? then Success(date.s + " " + time.s) else Failure(TypeError)
  }

  /** One of the two guarded rewrites: `None` when the guard is false. */
  function Rewrite<D>(data: map<string, Json>, key: string, parse: Parser<D>): (r: Result<Option<D>>)
    ensures !("date" in data && key in data) ==> r == Success(None)
    ensures "date" in data && key in data && r.Success? ==>
      && Combine(data["date"], data[key]).Success?
      && parse(Combine(data["date"], data[key]).value, CALENDAR_FORMAT).Success?
      && r.value == Some(parse(Combine(data["date"], data[key]).value, CALENDAR_FORMAT).value)
  {
    if "date" in data && key in data then
      var text :- Combine(data["date"], data[key]);
      var moment :- parse(text, CALENDAR_FORMAT);
      Success(Some(moment))
    else Success(None)
  }

  /** The dict as pydantic receives it, when both rewrites succeed. */
  function Rewritten<D>(data: map<string, Json>, open: Option<D>, close: Option<D>): map<string, CalendarValue<D>> {
    map k | k in data ::
      if k == "open" && open.Some? then Parsed(open.value)
      else if k == "close" && close.Some? then Parsed(close.value)
      else Raw(data[k])
  }

  /** `Calendar.__init__`: rewrite `open`, then `close`, each guarded by the presence of `date` and itself. */
  method CalendarInit<D>(data: map<string, Json>, parse: Parser<D>) returns (r: Result<map<string, CalendarValue<D>>>)
    ensures Rewrite(data, "open", parse).Failure? ==> r == Failure(Rewrite(data, "open", parse).error)
    ensures Rewrite(data, "open", parse).Success? && Rewrite(data, "close", parse).Failure? ==>
      r == Failure(Rewrite(data, "close", parse).error)
    ensures Rewrite(data, "open", parse).Success? && Rewrite(data, "close", parse).Success? ==>
      r == Success(Rewritten(data, Rewrite(data, "open", parse).value, Rewrite(data, "close", parse).value))
  {
    var fields: map<string, CalendarValue<D>> := map k | k in data :: Raw(data[k]);
    if "date" in fields && "open" in fields {
      var text := Combine(fields["date"].json, fields["open"].json);
      if text.Failure? {
        return Failure(text.error);
      }
      var moment := parse(text.value, CALENDAR_FORMAT);
      if moment.Failure? {
        return Failure(moment.error);
      }
      fields := fields["open" := Parsed(moment.value)];
    }
    assert fields == Rewritten(data, Rewrite(data, "open", parse).value, None);
    if "date" in fields && "close" in fields {
      assert fields["date"] == Raw(data["date"]) && fields["close"] == Raw(data["close"]);
      var text := Combine(fields["date"].json, fields["close"].json);
      if text.Failure? {
        return Failure(text.error);
      }
      var moment := parse(text.value, CALENDAR_FORMAT);
      if moment.Failure? {
        return Failure(moment.error);
      }
      fields := fields["close" := Parsed(moment.value)];
    }
    assert fields == Rewritten(data, Rewrite(data, "open", parse).value, Rewrite(data, "close", parse).value);
    return Success(fields);
  }

  /**
   * What the rewrite keeps: the same keys, `date` and every other entry
   * unchanged, and `open`/`close` replaced exactly when `date` and that
   * key are both present.
   */
  lemma RewrittenShape<D>(data: map<string, Json>, parse: Parser<D>)
    requires Rewrite(data, "open", parse).Success? && Rewrite(data, "close", parse).Success?
    ensures var out := Rewritten(data, Rewrite(data, "open", parse).value, Rewrite(data, "close", parse).value);
      && out.Keys == data.Keys
      && (forall k :: k in data && k != "open" && k != "close" ==> out[k] == Raw(data[k]))
      && ("open" in data ==> (out["open"].Parsed? <==> "date" in data))
      && ("close" in data ==> (out["close"].Parsed? <==> "date" in data))
  {
  }

  /** The two rewrites are independent: neither depends on the other's entry. */
  lemma RewritesIndependent<D>(data: map<string, Json>, parse: Parser<D>, other: Json)
    ensures Rewrite(data["close" := other], "open", parse) == Rewrite(data, "open", parse)
    ensures Rewrite(data["open" := other], "close", parse) == Rewrite(data, "close", parse)
  {
  }

  /** The parser receives the date, one space and the time, with the fixed format. */
  lemma ParserInput<D>(date: string, time: string, parse: Parser<D>)
    ensures var data := map["date" := JStr(date), "open" := JStr(time)];
      Rewrite(data, "open", parse) ==
        match parse(date + " " + time, CALENDAR_FORMAT) case Success(m) => Success(Some(m)) case Failure(e) => Failure(e)
  {
  }

  /** A non-string date or time raises TypeError before anything is parsed. */
  lemma NonStringRaises<D>(data: map<string, Json>, key: string, parse: Parser<D>)
    requires "date" in data && key in data && !(data["date"].JStr? && data[key].JStr?)
    ensures Rewrite(data, key, parse) == Failure(TypeError)
  {
  }
}
