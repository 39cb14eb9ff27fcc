/** MistralInvoiceProcessor.assess_risk (finguardai/mistral.py): the unusual-item pre-screening and
    the fallback assessments that stand in for the model's answer when anything goes wrong. */
module RiskScreen {
  import opened Wrappers
  import opened Json
  import opened Text
  import opened Python
  import opened Fences
  import opened Extraction

  /** One entry of `unusual_items`: a line item priced above five times the average (with the
      ratio its `reason` text reports), or the invoice total above 100 000. */
  datatype Flag = ItemFlag(item: Value, price: Number, average: real, ratio: real) | TotalFlag(amount: Value)

  const PriceFactor: real := 5.0
  const TotalLimit: real := 100000.0
  const RiskFields: seq<string> := ["risk_level", "confidence_score", "findings"]

  /** `[item['price'] for item in items]`, stopping at the first item that raises. */
  function PricesOf(items: seq<Value>): (r: Result<seq<Value>, PyError>)
    ensures r.Ok? ==> |r.value| == |items|
    ensures r.Ok? ==> forall k :: 0 <= k < |items| ==> Index(items[k], "price") == Ok(r.value[k])
  {
    if items == [] then Ok([])
    else match Index(items[0], "price")
      case Err(e) => Err(e)
      case Ok(p) =>
        match PricesOf(items[1..])
        case Err(e) => Err(e)
        case Ok(ps) => Ok([p] + ps)
  }

  /** Line 142 over whatever `line_items` holds: iterating a dict yields its keys and a string its
      characters, and indexing either with 'price' raises; other values cannot be iterated. */
  function PriceValues(lineItems: Value): (r: Result<seq<Value>, PyError>)
    ensures r.Ok? && r.value != [] ==> lineItems.Arr? && PricesOf(lineItems.items) == r
  {
    match lineItems
    case Arr(items) => PricesOf(items)
    case Obj(m) => if |m| == 0 then Ok([]) else Err(TypeError("string indices must be integers, not 'str'"))
    case Str(s) => if s == [] then Ok([]) else Err(TypeError("string indices must be integers, not 'str'"))
    case _ => Err(TypeError("'" + TypeName(lineItems) + "' object is not iterable"))
  }

  /** sum(values): a left fold starting from the int 0. */
  function Sum(values: seq<Value>): (r: Result<Number, PyError>)
    ensures r.Ok? <==> forall k :: 0 <= k < |values| ==> AsNumber(values[k]).Some?
  {
    if values == [] then Ok(Number(false, 0.0))
    else match Sum(values[..|values| - 1])
      case Err(e) => Err(e)
      case Ok(acc) =>
        match AsNumber(values[|values| - 1])
        case None =>
          Err(TypeError("unsupported operand type(s) for +: '" + NumberType(acc) + "' and '"
                        + TypeName(values[|values| - 1]) + "'"))
        case Some(n) => Ok(Plus(acc, n))
  }

  /** The price of an item whose 'price' reads as a number. */
  function PriceOf(item: Value): Option<Number> {
    match Index(item, "price")
    case Ok(p) => AsNumber(p)
    case Err(_) => None
  }

  predicate Priced(items: seq<Value>) {
    forall k :: 0 <= k < |items| ==> PriceOf(items[k]).Some?
  }

  /** `item['price'] > avg_price * 5` */
  predicate Unusual(item: Value, average: real)
    requires PriceOf(item).Some?
  {
    PriceOf(item).value.val > average * PriceFactor
  }

  /** Lines 149-155 for one item: nothing, a flag, or the exception raised while building it
      (a missing 'name', or a zero average in the ratio of the reason text). */
  function FlagItem(item: Value, average: real): Result<Option<Flag>, PyError>
    requires PriceOf(item).Some?
  {
    if !Unusual(item, average) then Ok(None)
    else match Index(item, "name")
      case Err(e) => Err(e)
      case Ok(name) =>
        if average == 0.0 then Err(ZeroDivisionError("float division by zero"))
        else
          var price := PriceOf(item).value;
          Ok(Some(ItemFlag(name, price, average, price.val / average)))
  }

  /** The flags of the items, in item order, or the first exception. */
  function FlagItems(items: seq<Value>, average: real): Result<seq<Flag>, PyError>
    requires Priced(items)
  {
    if items == [] then Ok([])
    else match FlagItems(items[..|items| - 1], average)
      case Err(e) => Err(e)
      case Ok(flags) =>
        match FlagItem(items[|items| - 1], average)
        case Err(e) => Err(e)
        case Ok(None) => Ok(flags)
        case Ok(Some(f)) => Ok(flags + [f])
  }

  /** Lines 158-163: the total is flagged when it is above 100 000. */
  function TotalFlags(data: map<string, Value>): Result<seq<Flag>, PyError> {
    if "total_amount" !in data then Err(KeyError("total_amount"))
    else match AsNumber(data["total_amount"])
      case None =>
        Err(TypeError("'>' not supported between instances of '" + TypeName(data["total_amount"]) + "' and 'int'"))
      case Some(n) => Ok(if n.val > TotalLimit then [TotalFlag(data["total_amount"])] else [])
  }

  /** Lines 142-163: the unusual items, or the exception that aborts the screening. */
  function Screen(data: map<string, Value>): Result<seq<Flag>, PyError> {
    if "line_items" !in data then Err(KeyError("line_items"))
    else match PriceValues(data["line_items"])
      case Err(e) => Err(e)
      case Ok(prices) =>
        match Sum(prices)
        case Err(e) => Err(e)
        case Ok(total) =>
          if |prices| == 0 then Err(ZeroDivisionError("division by zero"))
          else
            var items := data["line_items"].items;
            assert Priced(items) by {
              forall k | 0 <= k < |items| ensures PriceOf(items[k]).Some? {
                assert Index(items[k], "price") == Ok(prices[k]);
              }
            }
            match FlagItems(items, total.val / |prices| as real)
            case Err(e) => Err(e)
            case Ok(flags) =>
              match TotalFlags(data)
              case Err(e) => Err(e)
              case Ok(extra) => Ok(flags + extra)
  }

  /** `for field in fields: if field not in v: raise ValueError(...)` on the parsed answer. */
  function CheckRiskFields(v: Value, fields: seq<string>): (r: Result<(), PyError>)
    ensures r.Ok? ==> forall f :: f in fields ==> In(f, v) == Ok(true)
  {
    if fields == [] then Ok(())
    else match In(fields[0], v)
      case Err(e) => Err(e)
      case Ok(false) => Err(ValueError("Missing required field in risk assessment: " + fields[0]))
      case Ok(true) => CheckRiskFields(v, fields[1..])
  }

  /** Lines 236-243: the answer when the model's reply is not JSON. */
  const ParseFallback: Value := Obj(map[
    "risk_level" := Str("low"),
    "confidence_score" := Float(0.6),
    "findings" := Arr([Str("Unable to perform detailed risk assessment. Defaulting to low risk.")]),
    "unusual_items" := Arr([])])

  /** Lines 256-264: the answer when anything else raises, carrying the exception's text. */
  function FailureFallback(reason: string): Value {
    Obj(map[
      "risk_level" := Str("low"),
      "confidence_score" := Float(0.6),
      "findings" := Arr([Str("Error in risk assessment: " + reason),
                         Str("Defaulting to low risk due to assessment failure")]),
      "unusual_items" := Arr([])])
  }

  /** assess_risk, given the model's reply to the risk prompt. The flags only go into that prompt. */
  function Assess(data: map<string, Value>, reply: Upstream, loads: string -> Parsed): Value {
    match Screen(data)
    case Err(e) => FailureFallback(ErrorText(e))
    case Ok(_) =>
      match reply
      case Raised(m) => FailureFallback(m)
      case Reply(content) =>
        match loads(RiskJsonText(content))
        case Malformed(_) => ParseFallback
        case Parsed(v) =>
          match CheckRiskFields(v, RiskFields)
          case Err(e) => FailureFallback(ErrorText(e))
          case Ok(_) => v
  }

  // ---- The imperative form of the operation ----

  lemma {:induction false} FlagItemsErrorStays(items: seq<Value>, average: real, n: nat)
    requires Priced(items) && n <= |items|
    requires Priced(items[..n]) && FlagItems(items[..n], average).Err?
    ensures FlagItems(items, average) == FlagItems(items[..n], average)
    decreases |items| - n
  {
    if n < |items| {
      assert items[..n + 1][..n] == items[..n];
      assert Priced(items[..n + 1]);
      FlagItemsErrorStays(items, average, n + 1);
    } else {
      assert items[..n] == items;
    }
  }

  /** Lines 147-155: the loop over the items, appending a flag for each unusual one. */
  method FlagLoop(items: seq<Value>, average: real) returns (r: Result<seq<Flag>, PyError>)
    requires Priced(items)
    ensures r == FlagItems(items, average)
  {
    var unusual: seq<Flag> := [];
    var i := 0;
    while i < |items|
      invariant 0 <= i <= |items|
      invariant Priced(items[..i]) && FlagItems(items[..i], average) == Ok(unusual)
    {
      assert items[..i + 1][..i] == items[..i];
      assert Priced(items[..i + 1]);
      var flag := FlagItem(items[i], average);
      if flag.Err? {
        FlagItemsErrorStays(items, average, i + 1);
        return Err(flag.error);
      }
      if flag.value.Some? {
        unusual := unusual + [flag.value.value];
      }
      i := i + 1;
    }
    assert items[..i] == items;
    return Ok(unusual);
  }

  /** Lines 142-163: the average price, the item flags, then the total check. */
  method FindUnusualItems(data: map<string, Value>) returns (r: Result<seq<Flag>, PyError>)
    ensures r == Screen(data)
  {
    if "line_items" !in data {
      return Err(KeyError("line_items"));
    }
    var prices := PriceValues(data["line_items"]);
    if prices.Err? {
      return Err(prices.error);
    }
    var total := Sum(prices.value);
    if total.Err? {
      return Err(total.error);
    }
    if |prices.value| == 0 {
      return Err(ZeroDivisionError("division by zero"));
    }
    var items := data["line_items"].items;
    assert Priced(items) by {
      forall k | 0 <= k < |items| ensures PriceOf(items[k]).Some? {
        assert Index(items[k], "price") == Ok(prices.value[k]);
      }
    }
    var flags := FlagLoop(items, total.value.val / |prices.value| as real);
    if flags.Err? {
      return Err(flags.error);
    }
    var extra := TotalFlags(data);
    if extra.Err? {
      return Err(extra.error);
    }
    return Ok(flags.value + extra.value);
  }

  /** Lines 245-249: the loop over the required answer fields. */
  method CheckAnswerFields(v: Value) returns (r: Result<(), PyError>)
    ensures r == CheckRiskFields(v, RiskFields)
  {
    for i := 0 to |RiskFields|
      invariant CheckRiskFields(v, RiskFields) == CheckRiskFields(v, RiskFields[i..])
    {
      assert RiskFields[i..][1..] == RiskFields[i + 1..];
      var present := In(RiskFields[i], v);
      if present.Err? {
        return Err(present.error);
      }
      if !present.value {
        return Err(ValueError("Missing required field in risk assessment: " + RiskFields[i]));
      }
    }
    return Ok(());
  }

  /** assess_risk (lines 138-264), the model's reply given. */
  method AssessRisk(data: map<string, Value>, reply: Upstream, loads: string -> Parsed) returns (assessment: Value)
    ensures assessment == Assess(data, reply, loads)
  {
    var unusual := FindUnusualItems(data);
    if unusual.Err? {
      return FailureFallback(ErrorText(unusual.error));
    }
    if reply.Raised? {
      return FailureFallback(reply.message);
    }
    var parsed := loads(RiskJsonText(reply.content));
    if parsed.Malformed? {
      return ParseFallback;
    }
    var checked := CheckAnswerFields(parsed.value);
    if checked.Err? {
      return FailureFallback(ErrorText(checked.error));
    }
    return parsed.value;
  }

  // ---- What the screening promises ----

  /** The indices of the unusual items, in increasing order. */
  function FlaggedIndices(items: seq<Value>, average: real): seq<nat>
    requires Priced(items)
  {
    if items == [] then []
    else
      FlaggedIndices(items[..|items| - 1], average)
        + (if Unusual(items[|items| - 1], average) then [|items| - 1] else [])
  }

  /** Exactly the items above five times the average are flagged, each once, in item order. */
  lemma {:induction false} FlaggedIndicesExact(items: seq<Value>, average: real)
    requires Priced(items)
    ensures var idx := FlaggedIndices(items, average);
            && (forall j :: 0 <= j < |idx| ==> idx[j] < |items|)
            && (forall j, j' :: 0 <= j < j' < |idx| ==> idx[j] < idx[j'])
            && (forall k :: 0 <= k < |items| ==> (k in idx <==> Unusual(items[k], average)))
  {
    if items != [] {
      var init := items[..|items| - 1];
      assert Priced(init);
      FlaggedIndicesExact(init, average);
      assert forall k :: 0 <= k < |init| ==> init[k] == items[k];
    }
  }

  /** The flag an unusual item gets when nothing raises: its name, its price, the average and their
      ratio. */
  predicate FlagFor(item: Value, average: real, flag: Flag)
    requires PriceOf(item).Some?
  {
    && average != 0.0 && Index(item, "name").Ok?
    && flag == ItemFlag(Index(item, "name").value, PriceOf(item).value, average, PriceOf(item).value.val / average)
  }

  /** When no flag raises, the j-th flag is the j-th unusual item's. */
  lemma {:induction false} FlagItemsMatch(items: seq<Value>, average: real)
    requires Priced(items) && FlagItems(items, average).Ok?
    ensures var flags := FlagItems(items, average).value;
            var idx := FlaggedIndices(items, average);
            && |flags| == |idx|
            && forall j :: 0 <= j < |flags| ==> idx[j] < |items| && FlagFor(items[idx[j]], average, flags[j])
  {
    if items != [] {
      var n := |items| - 1;
      var init := items[..n];
      FlagStep(items, average);
      FlagItemsMatch(init, average);
      var flags := FlagItems(init, average).value;
      var idx := FlaggedIndices(init, average);
      var all := FlagItems(items, average).value;
      var allIdx := FlaggedIndices(items, average);
      forall j | 0 <= j < |all|
        ensures allIdx[j] < |items| && FlagFor(items[allIdx[j]], average, all[j])
      {
        if j < |flags| {
          assert all[j] == flags[j] && allIdx[j] == idx[j];
          assert items[idx[j]] == init[idx[j]];
        }
      }
    }
  }

  /** One more item: an unusual one adds its own flag and its index, any other adds nothing. */
  lemma FlagStep(items: seq<Value>, average: real)
    requires Priced(items) && items != [] && FlagItems(items, average).Ok?
    ensures var n := |items| - 1;
            && Priced(items[..n]) && FlagItems(items[..n], average).Ok?
            && if Unusual(items[n], average) then
                 && FlagItem(items[n], average).Ok? && FlagItem(items[n], average).value.Some?
                 && FlagFor(items[n], average, FlagItem(items[n], average).value.value)
                 && FlagItems(items, average).value
                    == FlagItems(items[..n], average).value + [FlagItem(items[n], average).value.value]
                 && FlaggedIndices(items, average) == FlaggedIndices(items[..n], average) + [n]
               else
                 && FlagItems(items, average).value == FlagItems(items[..n], average).value
                 && FlaggedIndices(items, average) == FlaggedIndices(items[..n], average)
  {
    assert Priced(items[..|items| - 1]);
  }

  /** A successful screening lists the item flags first and ends with the total's flag exactly when
      the total is above 100 000. */
  lemma ScreenShape(data: map<string, Value>)
    requires Screen(data).Ok?
    ensures var flags := Screen(data).value;
            && "total_amount" in data && AsNumber(data["total_amount"]).Some?
            && ((flags != [] && flags[|flags| - 1].TotalFlag?) <==> AsNumber(data["total_amount"]).value.val > TotalLimit)
            && forall j :: 0 <= j < |flags| - 1 ==> flags[j].ItemFlag?
  {
    var prices := PriceValues(data["line_items"]).value;
    var items := data["line_items"].items;
    var average := Sum(prices).value.val / |prices| as real;
    assert Priced(items) by {
      forall k | 0 <= k < |items| ensures PriceOf(items[k]).Some? {
        assert Index(items[k], "price") == Ok(prices[k]);
      }
    }
    FlagItemsMatch(items, average);
  }

  /** Σ of the prices of priced items. */
  function PriceSum(items: seq<Value>): real
    requires Priced(items)
  {
    if items == [] then 0.0 else PriceSum(items[..|items| - 1]) + PriceOf(items[|items| - 1]).value.val
  }

  /** n copies of t added up. */
  function Scaled(n: nat, t: real): real {
    if n == 0 then 0.0 else Scaled(n - 1, t) + t
  }

  lemma {:induction false} ScaledIsProduct(n: nat, t: real)
    ensures Scaled(n, t) == n as real * t
  {
    if n > 0 {
      ScaledIsProduct(n - 1, t);
    }
  }

  /** With no negative prices, the flagged items alone are worth more than the threshold each, so
      their number of thresholds stays below the sum of all prices. */
  lemma {:induction false} FlaggedBelowSum(items: seq<Value>, average: real)
    requires Priced(items) && average >= 0.0
    requires forall k :: 0 <= k < |items| ==> PriceOf(items[k]).value.val >= 0.0
    ensures var count := |FlaggedIndices(items, average)|;
            Scaled(count, average * PriceFactor) <= PriceSum(items)
            && (count > 0 ==> Scaled(count, average * PriceFactor) < PriceSum(items))
  {
    if items != [] {
      var init := items[..|items| - 1];
      assert Priced(init);
      assert forall k :: 0 <= k < |init| ==> init[k] == items[k];
      FlaggedBelowSum(init, average);
      var c := |FlaggedIndices(init, average)|;
      var last := PriceOf(items[|items| - 1]).value.val;
      assert PriceSum(items) == PriceSum(init) + last;
      if Unusual(items[|items| - 1], average) {
        assert |FlaggedIndices(items, average)| == c + 1;
      } else {
        assert |FlaggedIndices(items, average)| == c;
      }
    }
  }

  lemma {:induction false} SumOfPrices(items: seq<Value>, prices: seq<Value>)
    requires |prices| == |items|
    requires forall k :: 0 <= k < |items| ==> Index(items[k], "price") == Ok(prices[k])
    requires Priced(items)
    ensures Sum(prices).Ok? && Sum(prices).value.val == PriceSum(items)
  {
    if items != [] {
      var n := |items| - 1;
      assert forall k :: 0 <= k < n ==> items[..n][k] == items[k] && prices[..n][k] == prices[k];
      assert Priced(items[..n]);
      SumOfPrices(items[..n], prices[..n]);
    }
  }

  lemma FewerThanAFifth(count: nat, n: nat, sum: real, a: real)
    requires n > 0 && sum > 0.0 && a == sum / n as real
    requires Scaled(count, a * PriceFactor) < sum
    ensures 5 * count < n
  {
    ScaledIsProduct(count, a * PriceFactor);
    assert sum == a * n as real;
    assert a > 0.0;
    assert (5 * count) as real * a < (n as real) * a;
  }

  /** What the screening needs of an invoice: a non-empty list of valid items and a numeric total. */
  predicate Screenable(data: map<string, Value>) {
    && "line_items" in data && "total_amount" in data
    && data["line_items"].Arr? && |data["line_items"].items| > 0
    && (forall k :: 0 <= k < |data["line_items"].items| ==> ValidItem(data["line_items"].items[k]))
    && AsNumber(data["total_amount"]).Some?
  }

  /** A validated invoice is screened without an exception, and since its prices are positive fewer
      than a fifth of its items can be flagged as unusual. */
  lemma ValidatedScreening(data: map<string, Value>)
    requires WellFormed(Obj(data))
    ensures Screen(data).Ok? && TotalFlags(data).Ok?
    ensures 5 * (|Screen(data).value| - |TotalFlags(data).value|) < |data["line_items"].items|
  {
    assert Screenable(data);
    ScreenableScreening(data);
  }

  lemma ScreenableScreening(data: map<string, Value>)
    requires Screenable(data)
    ensures Screen(data).Ok? && TotalFlags(data).Ok?
    ensures 5 * (|Screen(data).value| - |TotalFlags(data).value|) < |data["line_items"].items|
  {
    var items := data["line_items"].items;
    ScreenableFlags(data);
    FewUnusual(items);
    FlagItemsMatch(items, PriceSum(items) / |items| as real);
  }

  /** The screening of such an invoice is its item flags around the mean price, then its total flag. */
  lemma ScreenableFlags(data: map<string, Value>)
    requires Screenable(data)
    ensures Priced(data["line_items"].items) && PriceSum(data["line_items"].items) > 0.0
    ensures var items := data["line_items"].items;
            FlagItems(items, PriceSum(items) / |items| as real).Ok? && TotalFlags(data).Ok?
    ensures var items := data["line_items"].items;
            Screen(data) == Ok(FlagItems(items, PriceSum(items) / |items| as real).value + TotalFlags(data).value)
  {
    var items := data["line_items"].items;
    var average := PriceSum(items) / |items| as real;
    ScreenablePrices(data);
    ScreenablePositive(items);
    FlagItemsSucceed(items, average);
    ScreenUnfolds(data, PriceValues(data["line_items"]).value, average);
  }

  /** Reading the prices of such an invoice succeeds, and their sum is the sum of its prices. */
  lemma ScreenablePrices(data: map<string, Value>)
    requires Screenable(data)
    ensures var items := data["line_items"].items;
            && Priced(items) && PriceValues(data["line_items"]).Ok?
            && |PriceValues(data["line_items"]).value| == |items|
            && Sum(PriceValues(data["line_items"]).value).Ok?
            && Sum(PriceValues(data["line_items"]).value).value.val == PriceSum(items)
  {
    var items := data["line_items"].items;
    assert Priced(items);
    PricesOfSucceed(items);
    SumOfPrices(items, PricesOf(items).value);
  }

  lemma ScreenablePositive(items: seq<Value>)
    requires |items| > 0 && forall k :: 0 <= k < |items| ==> ValidItem(items[k])
    ensures Priced(items) && PriceSum(items) > 0.0
  {
    assert Priced(items);
    PositiveSum(items);
  }

  /** Screen, once the prices are read and summed. */
  lemma ScreenUnfolds(data: map<string, Value>, prices: seq<Value>, average: real)
    requires "line_items" in data && data["line_items"].Arr? && Priced(data["line_items"].items)
    requires PriceValues(data["line_items"]) == Ok(prices) && |prices| == |data["line_items"].items| > 0
    requires Sum(prices).Ok? && average == Sum(prices).value.val / |prices| as real
    requires FlagItems(data["line_items"].items, average).Ok? && TotalFlags(data).Ok?
    ensures Screen(data) == Ok(FlagItems(data["line_items"].items, average).value + TotalFlags(data).value)
  {
  }

  /** Among positive prices, fewer than a fifth lie above five times their mean. */
  lemma FewUnusual(items: seq<Value>)
    requires |items| > 0 && forall k :: 0 <= k < |items| ==> ValidItem(items[k])
    ensures Priced(items) && 5 * |FlaggedIndices(items, PriceSum(items) / |items| as real)| < |items|
  {
    assert Priced(items);
    var sum := PriceSum(items);
    PositiveSum(items);
    var average := sum / |items| as real;
    FlaggedBelowSum(items, average);
    var count := |FlaggedIndices(items, average)|;
    if count > 0 {
      FewerThanAFifth(count, |items|, sum, average);
    }
  }

  lemma {:induction false} PricesOfSucceed(items: seq<Value>)
    requires forall k :: 0 <= k < |items| ==> ValidItem(items[k])
    ensures PricesOf(items).Ok?
  {
    if items != [] {
      PricesOfSucceed(items[1..]);
    }
  }

  lemma {:induction false} PositiveSum(items: seq<Value>)
    requires |items| > 0 && Priced(items)
    requires forall k :: 0 <= k < |items| ==> PriceOf(items[k]).value.val > 0.0
    ensures PriceSum(items) > 0.0
  {
    var init := items[..|items| - 1];
    assert Priced(init);
    if init != [] {
      assert forall k :: 0 <= k < |init| ==> init[k] == items[k];
      PositiveSum(init);
    }
  }

  lemma {:induction false} FlagItemsSucceed(items: seq<Value>, average: real)
    requires Priced(items) && average > 0.0
    requires forall k :: 0 <= k < |items| ==> ValidItem(items[k])
    ensures FlagItems(items, average).Ok?
  {
    if items != [] {
      var init := items[..|items| - 1];
      assert Priced(init);
      assert forall k :: 0 <= k < |init| ==> init[k] == items[k];
      FlagItemsSucceed(init, average);
    }
  }

  // ---- What the answer promises ----

  /** `field in answer` holds for each of the three fields. */
  predicate HasRiskFields(answer: Value) {
    forall f :: f in RiskFields ==> In(f, answer) == Ok(true)
  }

  lemma FallbacksHaveFields(reason: string)
    ensures HasRiskFields(ParseFallback) && HasRiskFields(FailureFallback(reason))
  {
  }

  /** Whatever happens, the three fields are `in` the answer; when the answer is not a dict it is the
      model's own parsed reply, returned as it is. */
  lemma AssessHasFields(data: map<string, Value>, reply: Upstream, loads: string -> Parsed)
    ensures HasRiskFields(Assess(data, reply, loads))
    ensures !Assess(data, reply, loads).Obj? ==>
              reply.Reply? && loads(RiskJsonText(reply.content)) == Parsed(Assess(data, reply, loads))
  {
    match Screen(data)
    case Err(e) => FallbacksHaveFields(ErrorText(e));
    case Ok(_) =>
      match reply
      case Raised(m) => FallbacksHaveFields(m);
      case Reply(content) =>
        match loads(RiskJsonText(content))
        case Malformed(_) => FallbacksHaveFields("");
        case Parsed(v) =>
          match CheckRiskFields(v, RiskFields)
          case Err(e) => FallbacksHaveFields(ErrorText(e));
          case Ok(_) =>
  }

  /** A reply that is not JSON gives the low-risk answer with one finding and no unusual items. */
  lemma ParseFailureAnswer(data: map<string, Value>, content: string, loads: string -> Parsed)
    requires Screen(data).Ok? && loads(RiskJsonText(content)).Malformed?
    ensures var r := Assess(data, Reply(content), loads);
            && r.Obj? && r.fields["risk_level"] == Str("low") && r.fields["confidence_score"] == Float(0.6)
            && r.fields["findings"].Arr? && |r.fields["findings"].items| == 1
            && r.fields["unusual_items"] == Arr([])
  {
    assert Assess(data, Reply(content), loads) == ParseFallback;
    ParseFallbackShape();
  }

  lemma ParseFallbackShape()
    ensures && ParseFallback.Obj? && ParseFallback.fields["risk_level"] == Str("low")
            && ParseFallback.fields["confidence_score"] == Float(0.6)
            && ParseFallback.fields["findings"].Arr? && |ParseFallback.fields["findings"].items| == 1
            && ParseFallback.fields["unusual_items"] == Arr([])
  {
  }

  /** Missing line items (KeyError) and an empty list (division by zero) give the low-risk answer with
      two findings, the first naming the exception, whatever the model would have said. */
  lemma ScreeningFailureAnswer(data: map<string, Value>, reply: Upstream, loads: string -> Parsed)
    requires "line_items" !in data || data["line_items"] == Arr([])
    ensures var r := Assess(data, reply, loads);
            && r.Obj? && r.fields["risk_level"] == Str("low") && r.fields["confidence_score"] == Float(0.6)
            && r.fields["unusual_items"] == Arr([])
            && r.fields["findings"] == Arr([
                 Str("Error in risk assessment: " + (if "line_items" !in data then "'line_items'" else "division by zero")),
                 Str("Defaulting to low risk due to assessment failure")])
  {
    var e := if "line_items" !in data then KeyError("line_items") else ZeroDivisionError("division by zero");
    ScreeningErrors(data);
    assert ErrorText(e) == if "line_items" !in data then "'line_items'" else "division by zero";
    assert Assess(data, reply, loads) == FailureFallback(ErrorText(e));
    FailureFallbackShape(ErrorText(e));
  }

  lemma ScreeningErrors(data: map<string, Value>)
    requires "line_items" !in data || data["line_items"] == Arr([])
    ensures Screen(data) == Err(if "line_items" !in data then KeyError("line_items") else ZeroDivisionError("division by zero"))
  {
    if "line_items" in data {
      assert PriceValues(data["line_items"]) == Ok([]);
    }
  }

  lemma FailureFallbackShape(reason: string)
    ensures var r := FailureFallback(reason);
            && r.Obj? && r.fields["risk_level"] == Str("low") && r.fields["confidence_score"] == Float(0.6)
            && r.fields["unusual_items"] == Arr([])
            && r.fields["findings"] == Arr([Str("Error in risk assessment: " + reason),
                                            Str("Defaulting to low risk due to assessment failure")])
  {
  }

  /** The answer depends on the flags only through the model's reply, which is a parameter here: two
      invoices that both screen without an exception get the same answer from the same reply. */
  lemma FlagsDoNotReachAnswer(d1: map<string, Value>, d2: map<string, Value>, reply: Upstream, loads: string -> Parsed)
    requires Screen(d1).Ok? && Screen(d2).Ok?
    ensures Assess(d1, reply, loads) == Assess(d2, reply, loads)
  {
  }

  /** A list naming the three fields passes the field check and is returned as the assessment: the
      answer is not always a dict. */
  lemma AssessMayReturnList(data: map<string, Value>, content: string, loads: string -> Parsed)
    requires Screen(data).Ok?
    requires loads(RiskJsonText(content)) == Parsed(Arr([Str("risk_level"), Str("confidence_score"), Str("findings")]))
    ensures Assess(data, Reply(content), loads) == Arr([Str("risk_level"), Str("confidence_score"), Str("findings")])
  {
    var listing := [Str("risk_level"), Str("confidence_score"), Str("findings")];
    InList("risk_level", listing, 0);
    InList("confidence_score", listing, 1);
    InList("findings", listing, 2);
    FieldsPassCheck(Arr(listing), RiskFields);
  }

  lemma InList(key: string, items: seq<Value>, k: nat)
    requires k < |items| && items[k] == Str(key)
    ensures In(key, Arr(items)) == Ok(true)
  {
  }

  /** The field check passes exactly when each field is `in` the answer. */
  lemma {:induction false} FieldsPassCheck(v: Value, fields: seq<string>)
    requires forall f :: f in fields ==> In(f, v) == Ok(true)
    ensures CheckRiskFields(v, fields) == Ok(())
  {
    if fields != [] {
      assert fields[0] in fields;
      assert forall f :: f in fields[1..] ==> f in fields;
      FieldsPassCheck(v, fields[1..]);
    }
  }
}
