/** MistralInvoiceProcessor.extract_invoice_data (finguardai/mistral.py): the model's reply is
    cleaned, parsed and validated in a fixed order; the first failing check decides the message. */
module Extraction {
  import opened Wrappers
  import opened Json
  import opened Text
  import opened Python
  import opened Fences

  /** The language model's reply, or the text of the exception raised while reading the PDF or
      calling the model (both happen inside the `try` of the operation). */
  datatype Upstream = Reply(content: string) | Raised(message: string)

  const RequiredFields: seq<string> := ["vendor", "date", "invoice_number", "total_amount", "line_items"]
  const ItemKeys: seq<string> := ["name", "quantity", "price"]
  const Tolerance: real := 0.01

  /** Why extraction failed; Message gives the text that ends up under "error". */
  datatype ExtractError =
    | Failed(message: string)
    | MissingField(field: string)
    | NotAList
    | NoLineItems
    | ItemMissingKeys
    | InvalidQuantity(name: Value)
    | InvalidPrice(name: Value)
    | TotalMismatch(stated: Value, sum: Number)
    | Runtime(error: PyError)

  function Message(e: ExtractError): string {
    match e
    case Failed(m) => m
    case MissingField(f) => "Missing required field: " + f
    case NotAList => "line_items must be a list"
    case NoLineItems => "No line items found in invoice"
    case ItemMissingKeys => "Each line item must have name, quantity, and price"
    case InvalidQuantity(n) => "Invalid quantity for item " + PyStr(n)
    case InvalidPrice(n) => "Invalid price for item " + PyStr(n)
    case TotalMismatch(t, s) =>
      "Total amount " + PyStr(t) + " does not match sum of line items " + NumberText(s)
    case Runtime(err) => ErrorText(err)
  }

  /** `isinstance(v, (int, float)) and v > 0` */
  predicate Positive(v: Value) {
    AsNumber(v).Some? && AsNumber(v).value.val > 0.0
  }

  /** `for field in fields: if field not in data: raise ...`, in the order given. */
  function CheckFields(data: Value, fields: seq<string>): (r: Result<(), ExtractError>)
    ensures data.Obj? && r.Ok? ==> forall f :: f in fields ==> f in data.fields
  {
    if fields == [] then Ok(())
    else match In(fields[0], data)
      case Err(e) => Err(Runtime(e))
      case Ok(false) => Err(MissingField(fields[0]))
      case Ok(true) => CheckFields(data, fields[1..])
  }

  /** `all(k in item for k in keys)`: stops at the first absent key or the first `in` that raises. */
  function AllIn(keys: seq<string>, item: Value): (r: Result<bool, PyError>)
    ensures item.Obj? ==> r == Ok(forall k :: k in keys ==> k in item.fields)
  {
    if keys == [] then Ok(true)
    else match In(keys[0], item)
      case Err(e) => Err(e)
      case Ok(false) => Ok(false)
      case Ok(true) => AllIn(keys[1..], item)
  }

  /** The checks of one line item, in order; price × quantity when they all pass. */
  function CheckItem(item: Value): Result<Number, ExtractError> {
    match AllIn(ItemKeys, item)
    case Err(e) => Err(Runtime(e))
    case Ok(false) => Err(ItemMissingKeys)
    case Ok(true) =>
      match Index(item, "quantity")
      case Err(e) => Err(Runtime(e))
      case Ok(q) =>
        assert "name" in item.fields && "price" in item.fields;
        if !Positive(q) then Err(InvalidQuantity(item.fields["name"]))
        else if !Positive(item.fields["price"]) then Err(InvalidPrice(item.fields["name"]))
        else Ok(Times(AsNumber(item.fields["price"]).value, AsNumber(q).value))
  }

  /** The running total over `items` in order, or the error of the first item that fails. */
  function SumItems(items: seq<Value>): Result<Number, ExtractError> {
    if items == [] then Ok(Number(false, 0.0))
    else match SumItems(items[..|items| - 1])
      case Err(e) => Err(e)
      case Ok(total) =>
        match CheckItem(items[|items| - 1])
        case Err(e) => Err(e)
        case Ok(amount) => Ok(Plus(total, amount))
  }

  /** `abs(total - stated) > 0.01` raises, as does a stated amount that is not a number. */
  function CheckTotal(stated: Value, total: Number): Result<(), ExtractError> {
    match AsNumber(stated)
    case None =>
      Err(Runtime(TypeError("unsupported operand type(s) for -: '" + NumberType(total)
                            + "' and '" + TypeName(stated) + "'")))
    case Some(n) => if Abs(total.val - n.val) > Tolerance then Err(TotalMismatch(stated, total)) else Ok(())
  }

  /** The validation of a parsed reply; a valid one is returned as it is. */
  function Validate(data: Value): (r: Result<Value, ExtractError>)
    ensures r.Ok? ==> r.value == data && data.Obj?
  {
    match CheckFields(data, RequiredFields)
    case Err(e) => Err(e)
    case Ok(_) =>
      match Index(data, "line_items")
      case Err(e) => Err(Runtime(e))
      case Ok(lineItems) =>
        if !lineItems.Arr? then Err(NotAList)
        else if |lineItems.items| == 0 then Err(NoLineItems)
        else match SumItems(lineItems.items)
          case Err(e) => Err(e)
          case Ok(total) =>
            assert "total_amount" in RequiredFields;
            match CheckTotal(data.fields["total_amount"], total)
            case Err(e) => Err(e)
            case Ok(_) => Ok(data)
  }

  /** The whole operation: the reply is cleaned, parsed and validated. */
  function Extract(reply: Upstream, loads: string -> Parsed): (r: Result<Value, ExtractError>)
    ensures r.Ok? ==> r.value.Obj?
  {
    match reply
    case Raised(m) => Err(Failed(m))
    case Reply(content) =>
      match loads(ExtractionJsonText(content))
      case Malformed(m) => Err(Failed(m))
      case Parsed(data) => Validate(data)
  }

  function ErrorRecord(e: ExtractError): map<string, Value> {
    map["error" := Str(Message(e))]
  }

  /** The dict the operation returns: the invoice, or `{"error": str(e)}`. */
  function Record(r: Result<Value, ExtractError>): map<string, Value>
    requires r.Ok? ==> r.value.Obj?
  {
    match r
    case Ok(data) => data.fields
    case Err(e) => ErrorRecord(e)
  }

  /** Once an item has failed, the items after it do not change the outcome. */
  lemma {:induction false} SumItemsErrorStays(items: seq<Value>, n: nat)
    requires n <= |items| && SumItems(items[..n]).Err?
    ensures SumItems(items) == SumItems(items[..n])
    decreases |items| - n
  {
    if n < |items| {
      assert items[..n + 1][..n] == items[..n];
      SumItemsErrorStays(items, n + 1);
    } else {
      assert items[..n] == items;
    }
  }

  /** Lines 118-126: the loop over the line items accumulating the total. */
  method SumLineItems(items: seq<Value>) returns (r: Result<Number, ExtractError>)
    ensures r == SumItems(items)
  {
    var total := Number(false, 0.0);
    var i := 0;
    while i < |items|
      invariant 0 <= i <= |items|
      invariant SumItems(items[..i]) == Ok(total)
    {
      assert items[..i + 1][..i] == items[..i];
      var amount := CheckItem(items[i]);
      if amount.Err? {
        SumItemsErrorStays(items, i + 1);
        return Err(amount.error);
      }
      total := Plus(total, amount.value);
      i := i + 1;
    }
    assert items[..i] == items;
    return Ok(total);
  }

  /** Lines 105-108: the loop over the required keys. */
  method CheckRequiredFields(data: Value) returns (r: Result<(), ExtractError>)
    ensures r == CheckFields(data, RequiredFields)
  {
    for i := 0 to |RequiredFields|
      invariant CheckFields(data, RequiredFields) == CheckFields(data, RequiredFields[i..])
    {
      assert RequiredFields[i..][1..] == RequiredFields[i + 1..];
      var present := In(RequiredFields[i], data);
      if present.Err? {
        return Err(Runtime(present.error));
      }
      if !present.value {
        return Err(MissingField(RequiredFields[i]));
      }
    }
    return Ok(());
  }

  /** Lines 104-132: the checks on a parsed reply, in order. */
  method ValidateInvoice(data: Value) returns (r: Result<Value, ExtractError>)
    ensures r == Validate(data)
  {
    var fields := CheckRequiredFields(data);
    if fields.Err? {
      return Err(fields.error);
    }
    var lineItems := Index(data, "line_items");
    if lineItems.Err? {
      return Err(Runtime(lineItems.error));
    }
    var items := lineItems.value;
    if !items.Arr? {
      return Err(NotAList);
    }
    if |items.items| == 0 {
      return Err(NoLineItems);
    }
    var total := SumLineItems(items.items);
    if total.Err? {
      return Err(total.error);
    }
    var checked := CheckTotal(data.fields["total_amount"], total.value);
    if checked.Err? {
      return Err(checked.error);
    }
    return Ok(data);
  }

  /** extract_invoice_data after the model has replied (lines 96-136). */
  method ExtractInvoiceData(reply: Upstream, loads: string -> Parsed) returns (record: map<string, Value>)
    ensures record == Record(Extract(reply, loads))
  {
    if reply.Raised? {
      return ErrorRecord(Failed(reply.message));
    }
    var parsed := loads(ExtractionJsonText(reply.content));
    if parsed.Malformed? {
      return ErrorRecord(Failed(parsed.message));
    }
    var validated := ValidateInvoice(parsed.value);
    if validated.Err? {
      return ErrorRecord(validated.error);
    }
    return validated.value.fields;
  }

  // ---- An independent statement of what a valid invoice is ----

  /** A line item that passes every check: a dict with the three keys and a positive number as
      quantity and as price. */
  predicate ValidItem(item: Value) {
    item.Obj? && "name" in item.fields && "quantity" in item.fields && "price" in item.fields
    && Positive(item.fields["quantity"]) && Positive(item.fields["price"])
  }

  function Amount(item: Value): real
    requires ValidItem(item)
  {
    AsNumber(item.fields["price"]).value.val * AsNumber(item.fields["quantity"]).value.val
  }

  /** Σ price × quantity. */
  function LineSum(items: seq<Value>): real
    requires forall k :: 0 <= k < |items| ==> ValidItem(items[k])
  {
    if items == [] then 0.0 else LineSum(items[..|items| - 1]) + Amount(items[|items| - 1])
  }

  /** Everything the validation demands of a parsed reply. */
  predicate WellFormed(data: Value) {
    && data.Obj?
    && (forall f :: f in RequiredFields ==> f in data.fields)
    && data.fields["line_items"].Arr?
    && |data.fields["line_items"].items| > 0
    && (forall k :: 0 <= k < |data.fields["line_items"].items| ==> ValidItem(data.fields["line_items"].items[k]))
    && AsNumber(data.fields["total_amount"]).Some?
    && Abs(LineSum(data.fields["line_items"].items) - AsNumber(data.fields["total_amount"]).value.val) <= Tolerance
  }

  /** A line item passes its checks exactly when it is valid, and then yields price × quantity. */
  lemma {:induction false} CheckItemIff(item: Value)
    ensures CheckItem(item).Ok? <==> ValidItem(item)
    ensures CheckItem(item).Ok? ==> CheckItem(item).value.val == Amount(item)
  {
    if item.Obj? {
      assert AllIn(ItemKeys, item) == Ok(forall k :: k in ItemKeys ==> k in item.fields);
    }
  }

  /** The loop over the items succeeds exactly when every item is valid, and then its total is
      Σ price × quantity. */
  lemma {:induction false} SumItemsIff(items: seq<Value>)
    ensures SumItems(items).Ok? <==> forall k :: 0 <= k < |items| ==> ValidItem(items[k])
    ensures SumItems(items).Ok? ==> SumItems(items).value.val == LineSum(items)
  {
    if items != [] {
      var init := items[..|items| - 1];
      SumItemsIff(init);
      CheckItemIff(items[|items| - 1]);
      assert forall k :: 0 <= k < |init| ==> init[k] == items[k];
      if forall k :: 0 <= k < |items| ==> ValidItem(items[k]) {
        assert forall k :: 0 <= k < |init| ==> ValidItem(init[k]);
      }
    }
  }

  /** The loop reports the error of the first invalid item, whatever follows it. */
  lemma {:induction false} SumItemsFirstError(items: seq<Value>, k: nat)
    requires k < |items|
    requires forall j :: 0 <= j < k ==> ValidItem(items[j])
    requires !ValidItem(items[k])
    ensures SumItems(items) == Err(CheckItem(items[k]).error)
    decreases |items|
  {
    var init := items[..|items| - 1];
    CheckItemIff(items[k]);
    if k < |items| - 1 {
      assert forall j :: 0 <= j <= k ==> init[j] == items[j];
      SumItemsFirstError(init, k);
    } else {
      assert init == items[..k];
      SumItemsIff(init);
    }
  }

  /** For a dict, the field loop fails exactly when a field is missing, and then names the first. */
  lemma {:induction false} CheckFieldsFirstMissing(data: Value, fields: seq<string>, k: nat)
    requires data.Obj?
    requires k < |fields| && fields[k] !in data.fields
    requires forall j :: 0 <= j < k ==> fields[j] in data.fields
    ensures CheckFields(data, fields) == Err(MissingField(fields[k]))
  {
    if k > 0 {
      assert fields[1..][k - 1] == fields[k];
      CheckFieldsFirstMissing(data, fields[1..], k - 1);
    }
  }

  lemma {:induction false} CheckFieldsAllPresent(data: Value, fields: seq<string>)
    requires data.Obj?
    requires forall f :: f in fields ==> f in data.fields
    ensures CheckFields(data, fields) == Ok(())
  {
    if fields != [] {
      CheckFieldsAllPresent(data, fields[1..]);
    }
  }

  /** Validation accepts exactly the well-formed invoices (both directions). */
  lemma ValidateIff(data: Value)
    ensures Validate(data).Ok? <==> WellFormed(data)
  {
    if Validate(data).Ok? {
      var items := data.fields["line_items"].items;
      SumItemsIff(items);
    }
    if WellFormed(data) {
      CheckFieldsAllPresent(data, RequiredFields);
      SumItemsIff(data.fields["line_items"].items);
    }
  }

  /** The required keys are checked first, in the listed order: the first missing one is reported
      whatever else is wrong. */
  lemma MissingFieldReported(data: Value, k: nat)
    requires data.Obj? && k < |RequiredFields| && RequiredFields[k] !in data.fields
    requires forall j :: 0 <= j < k ==> RequiredFields[j] in data.fields
    ensures Validate(data) == Err(MissingField(RequiredFields[k]))
  {
    CheckFieldsFirstMissing(data, RequiredFields, k);
  }

  /** With every key present, a line_items that is not a list is reported next, then an empty list. */
  lemma ListChecksReported(data: Value)
    requires data.Obj? && forall f :: f in RequiredFields ==> f in data.fields
    ensures !data.fields["line_items"].Arr? ==> Validate(data) == Err(NotAList)
    ensures data.fields["line_items"] == Arr([]) ==> Validate(data) == Err(NoLineItems)
  {
    CheckFieldsAllPresent(data, RequiredFields);
  }

  /** With a non-empty list, the first invalid item's error is reported, before the total is looked at. */
  lemma FirstBadItemReported(data: Value, k: nat)
    requires data.Obj? && forall f :: f in RequiredFields ==> f in data.fields
    requires data.fields["line_items"].Arr?
    requires k < |data.fields["line_items"].items|
    requires forall j :: 0 <= j < k ==> ValidItem(data.fields["line_items"].items[j])
    requires !ValidItem(data.fields["line_items"].items[k])
    ensures Validate(data) == Err(CheckItem(data.fields["line_items"].items[k]).error)
  {
    CheckFieldsAllPresent(data, RequiredFields);
    SumItemsFirstError(data.fields["line_items"].items, k);
  }

  /** With every item valid, the total is accepted exactly when it is within 0.01 of Σ price × quantity. */
  lemma TotalCheck(data: Value)
    requires data.Obj? && forall f :: f in RequiredFields ==> f in data.fields
    requires data.fields["line_items"].Arr? && |data.fields["line_items"].items| > 0
    requires forall k :: 0 <= k < |data.fields["line_items"].items| ==> ValidItem(data.fields["line_items"].items[k])
    requires AsNumber(data.fields["total_amount"]).Some?
    ensures var stated := AsNumber(data.fields["total_amount"]).value.val;
            var sum := LineSum(data.fields["line_items"].items);
            (Abs(sum - stated) <= Tolerance ==> Validate(data) == Ok(data))
            && (Abs(sum - stated) > Tolerance ==> Validate(data).Err? && Validate(data).error.TotalMismatch?)
  {
    CheckFieldsAllPresent(data, RequiredFields);
    SumItemsIff(data.fields["line_items"].items);
  }

  /** The operation returns the parsed invoice unchanged, or a dict holding only "error". */
  lemma ExtractRecordShape(content: string, loads: string -> Parsed)
    ensures var record := Record(Extract(Reply(content), loads));
            var parsed := loads(ExtractionJsonText(content));
            (parsed.Parsed? && WellFormed(parsed.value) && record == parsed.value.fields)
            || (record.Keys == {"error"} && record["error"].Str?)
  {
    var parsed := loads(ExtractionJsonText(content));
    if parsed.Parsed? {
      ValidateIff(parsed.value);
    }
  }
}
