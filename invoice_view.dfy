/** The InvoiceResults component (frontend/src/components/InvoiceResults.jsx): the no-data view, the
    header fields with their 'N/A' defaults, one table row per line item, and the total, which is
    shown as the invoice states it. */
module InvoiceView {
  import opened Wrappers
  import opened Json
  import opened Text
  import opened Js

  /** A table row: the texts of the name and quantity cells, the value handed to formatCurrency for
      the unit price, and the amount (None where the model does not follow ToNumber). */
  datatype Row = Row(name: string, quantity: string, unitPrice: Value, amount: Option<real>)

  /** The component's output: the error text when there is no data, or the header, the rows and the
      total row. Money columns hold the value handed to formatCurrency. */
  datatype InvoiceView =
    | NoData
    | Details(invoiceNumber: string, date: string, vendor: string, total: Value, rows: seq<Row>, totalRow: Value)

  /** A row as `lineItems.map` builds it, before React renders its cells. */
  datatype RawRow = RawRow(name: Value, quantity: Value, unitPrice: Value, amount: Option<real>)

  const NotAvailable: string := "N/A"
  const UnknownItem: string := "Unknown Item"
  const NullItem: string := "Cannot read properties of null (reading 'name')"

  /** formatCurrency's `amount || 0` (line 35). */
  function Money(amount: Option<Value>): (r: Value)
    ensures Present(amount) ==> r == amount.value
    ensures !Present(amount) ==> r == Int(0)
  {
    Or(amount, Int(0))
  }

  /** `a * b` once both operands are numbers. */
  function Product(a: Option<real>, b: Option<real>): (r: Option<real>)
    ensures r.Some? <==> a.Some? && b.Some?
    ensures r.Some? ==> r.value == a.value * b.value
  {
    if a.Some? && b.Some? then Some(a.value * b.value) else None
  }

  /** Lines 255-258 for one item: reading `name` from null throws; otherwise the name or 'Unknown
      Item', the quantity or 1, the price, and `(price || 0) * (quantity || 1)`. */
  function RawRowOf(item: Value): (r: Result<RawRow, string>)
    ensures r.Err? <==> item.Null?
    ensures r.Err? ==> r.error == NullItem
  {
    match Field(item, "name")
    case Err(_) => Err(NullItem)
    case Ok(name) =>
      var quantity := Field(item, "quantity").value;
      var price := Field(item, "price").value;
      Ok(RawRow(Or(name, Str(UnknownItem)), Or(quantity, Int(1)), Money(price),
                Product(ToNumber(Money(price)), ToNumber(Or(quantity, Int(1))))))
  }

  /** `lineItems.map(...)`: one row per item, in order, or the first exception. */
  function RawRows(items: seq<Value>): (r: Result<seq<RawRow>, string>)
    ensures r.Ok? <==> forall k :: 0 <= k < |items| ==> !items[k].Null?
    ensures r.Err? ==> r.error == NullItem
    ensures r.Ok? ==> |r.value| == |items|
    ensures r.Ok? ==> forall k :: 0 <= k < |items| ==> RawRowOf(items[k]) == Ok(r.value[k])
  {
    if items == [] then Ok([])
    else match RawRowOf(items[0])
      case Err(m) => Err(m)
      case Ok(row) =>
        match RawRows(items[1..])
        case Err(m) =>
          assert forall k :: 1 <= k < |items| ==> items[k] == items[1..][k - 1];
          Err(m)
        case Ok(rows) =>
          assert forall k :: 1 <= k < |items| ==> items[k] == items[1..][k - 1];
          Ok([row] + rows)
  }

  /** React renders a row's name and quantity cells; the money cells are strings. */
  function RowText(raw: RawRow): (r: Result<Row, string>)
    ensures r.Ok? ==> ValueText(raw.name) == Ok(r.value.name) && ValueText(raw.quantity) == Ok(r.value.quantity)
    ensures r.Ok? ==> r.value.unitPrice == raw.unitPrice && r.value.amount == raw.amount
    ensures r.Ok? <==> ValueText(raw.name).Ok? && ValueText(raw.quantity).Ok?
  {
    match ValueText(raw.name)
    case Err(m) => Err(m)
    case Ok(name) =>
      match ValueText(raw.quantity)
      case Err(m) => Err(m)
      case Ok(quantity) => Ok(Row(name, quantity, raw.unitPrice, raw.amount))
  }

  function RowTexts(raws: seq<RawRow>): (r: Result<seq<Row>, string>)
    ensures r.Ok? <==> forall k :: 0 <= k < |raws| ==> RowText(raws[k]).Ok?
    ensures r.Ok? ==> |r.value| == |raws|
    ensures r.Ok? ==> forall k :: 0 <= k < |raws| ==> RowText(raws[k]) == Ok(r.value[k])
  {
    if raws == [] then Ok([])
    else match RowText(raws[0])
      case Err(m) => Err(m)
      case Ok(row) =>
        match RowTexts(raws[1..])
        case Err(m) =>
          assert forall k :: 1 <= k < |raws| ==> raws[k] == raws[1..][k - 1];
          Err(m)
        case Ok(rows) =>
          assert forall k :: 1 <= k < |raws| ==> raws[k] == raws[1..][k - 1];
          Ok([row] + rows)
  }

  /** The row a single item ends up as. */
  function RowFor(item: Value): Result<Row, string> {
    match RawRowOf(item)
    case Err(m) => Err(m)
    case Ok(raw) => RowText(raw)
  }

  /** `data.key || 'N/A'` as a header cell shows it (lines 80, 109, 138). */
  function HeaderValue(data: Value, key: string): Value {
    Or(OptionalField(Some(data), key), Str(NotAvailable))
  }

  /** Line 39: the line items when they are an array, otherwise none. */
  function LineItemsOf(data: Value): (items: seq<Value>)
    ensures OptionalField(Some(data), "line_items").Some? && OptionalField(Some(data), "line_items").value.Arr? ==>
              items == OptionalField(Some(data), "line_items").value.items
    ensures !(OptionalField(Some(data), "line_items").Some? && OptionalField(Some(data), "line_items").value.Arr?) ==>
              items == []
  {
    var lineItems := OptionalField(Some(data), "line_items");
    if lineItems.Some? && lineItems.value.Arr? then lineItems.value.items else []
  }

  /** The total as both money cells show it (lines 168 and 288). */
  function TotalOf(data: Value): Value {
    Money(OptionalField(Some(data), "total_amount"))
  }

  /** The InvoiceResults component (lines 17-298): the map's exceptions come first, then an object
      child among the header and row cells. */
  function RenderInvoice(data: Option<Value>): Result<InvoiceView, string> {
    if !Present(data) then Ok(NoData)
    else
      var d := data.value;
      match RawRows(LineItemsOf(d))
      case Err(m) => Err(m)
      case Ok(raws) =>
        match ValueText(HeaderValue(d, "invoice_number"))
        case Err(m) => Err(m)
        case Ok(invoiceNumber) =>
          match ValueText(HeaderValue(d, "date"))
          case Err(m) => Err(m)
          case Ok(date) =>
            match ValueText(HeaderValue(d, "vendor"))
            case Err(m) => Err(m)
            case Ok(vendor) =>
              match RowTexts(raws)
              case Err(m) => Err(m)
              case Ok(rows) => Ok(Details(invoiceNumber, date, vendor, TotalOf(d), rows, TotalOf(d)))
  }

  /** Lines 21-27: the no-data view shows exactly when the data is missing or falsy. */
  lemma NoDataIff(data: Option<Value>)
    ensures RenderInvoice(data) == Ok(NoData) <==> !Present(data)
  {
  }

  /** A header cell shows the field when it is truthy and 'N/A' when it is missing or falsy. */
  lemma NotAvailableDefaults(m: map<string, Value>, key: string)
    ensures key !in m ==> HeaderValue(Obj(m), key) == Str(NotAvailable)
    ensures key in m && !Truthy(m[key]) ==> HeaderValue(Obj(m), key) == Str(NotAvailable)
    ensures key in m && Truthy(m[key]) ==> HeaderValue(Obj(m), key) == m[key]
  {
  }

  /** The render succeeds exactly when no line item is null, the header cells are not objects and
      every row renders; it then has one row per line item, in order, and a line_items value that is
      not an array gives no rows. */
  lemma {:induction false} OneRowPerItem(data: Option<Value>)
    requires Present(data)
    ensures RenderInvoice(data).Ok? <==>
            && (forall k :: 0 <= k < |LineItemsOf(data.value)| ==> RowFor(LineItemsOf(data.value)[k]).Ok?)
            && ValueText(HeaderValue(data.value, "invoice_number")).Ok?
            && ValueText(HeaderValue(data.value, "date")).Ok?
            && ValueText(HeaderValue(data.value, "vendor")).Ok?
    ensures RenderInvoice(data).Ok? ==>
            && RenderInvoice(data).value.Details?
            && |RenderInvoice(data).value.rows| == |LineItemsOf(data.value)|
            && forall k :: 0 <= k < |LineItemsOf(data.value)| ==>
                 RowFor(LineItemsOf(data.value)[k]) == Ok(RenderInvoice(data).value.rows[k])
  {
    var items := LineItemsOf(data.value);
    var raws := RawRows(items);
    if raws.Ok? {
      var texts := RowTexts(raws.value);
      forall k | 0 <= k < |items|
        ensures RowFor(items[k]) == RowText(raws.value[k])
      {
      }
    } else {
      var k :| 0 <= k < |items| && items[k].Null?;
      assert RowFor(items[k]).Err?;
    }
  }

  /** The cell defaults of one object item: a missing or falsy name shows 'Unknown Item'; a missing
      or zero quantity shows 1 and counts as 1; a missing price is shown and counted as 0. */
  lemma RowDefaults(m: map<string, Value>)
    requires ("name" !in m || m["name"] == Str(""))
    requires ("quantity" !in m || m["quantity"] == Int(0))
    requires "price" !in m
    ensures RowFor(Obj(m)) == Ok(Row(UnknownItem, "1", Int(0), Some(0.0)))
  {
    assert IntText(1) == "1";
  }

  /** Lines 257-258 for any object item: the price cell shows the price when it is truthy and 0
      otherwise; when price and quantity are numbers (or missing), the amount is the price, or 0 when
      it is falsy, times the quantity, or 1 when it is falsy. */
  lemma RowAmount(m: map<string, Value>)
    ensures RawRowOf(Obj(m)).Ok?
    ensures RawRowOf(Obj(m)).value.unitPrice == (if "price" in m && Truthy(m["price"]) then m["price"] else Int(0))
    ensures ("price" in m ==> ToNumber(m["price"]).Some?) && ("quantity" in m ==> ToNumber(m["quantity"]).Some?) ==>
              var p := if "price" in m && Truthy(m["price"]) then ToNumber(m["price"]).value else 0.0;
              var q := if "quantity" in m && Truthy(m["quantity"]) then ToNumber(m["quantity"]).value else 1.0;
              RawRowOf(Obj(m)).value.amount.Some? && RawRowOf(Obj(m)).value.amount.value == p * q
    ensures RowFor(Obj(m)).Ok? ==>
              && RowFor(Obj(m)).value.unitPrice == RawRowOf(Obj(m)).value.unitPrice
              && RowFor(Obj(m)).value.amount == RawRowOf(Obj(m)).value.amount
  {
    var price := Or(Field(Obj(m), "price").value, Int(0));
    var quantity := Or(Field(Obj(m), "quantity").value, Int(1));
    assert price == (if "price" in m && Truthy(m["price"]) then m["price"] else Int(0));
    assert quantity == (if "quantity" in m && Truthy(m["quantity"]) then m["quantity"] else Int(1));
  }

  /** Both total cells show total_amount as it is given; the line items play no part in it. */
  lemma TotalShownAsGiven(data: Option<Value>)
    requires RenderInvoice(data).Ok? && RenderInvoice(data).value.Details?
    ensures RenderInvoice(data).value.total == RenderInvoice(data).value.totalRow == TotalOf(data.value)
  {
  }

  /** The total shown does not depend on the line items. */
  lemma TotalIgnoresLineItems(m: map<string, Value>, items: Value)
    ensures TotalOf(Obj(m["line_items" := items])) == TotalOf(Obj(m))
  {
    assert "line_items"[0] != "total_amount"[0];
  }

  /** The item of the example below: 2 × 10 gives an amount of 20. */
  lemma ExampleRow()
    ensures RowFor(Obj(map["name" := Str("A"), "quantity" := Int(2), "price" := Int(10)])) == Ok(Row("A", "2", Int(10), Some(20.0)))
  {
    var item := Obj(map["name" := Str("A"), "quantity" := Int(2), "price" := Int(10)]);
    assert item.fields["price"] == Int(10) && item.fields["quantity"] == Int(2) && item.fields["name"] == Str("A");
    assert IntText(2) == "2";
  }

  /** An invoice whose one item is 2 × 10 but whose stated total is 5 shows an amount of 20 and a
      total of 5, side by side. */
  lemma TotalNotReconciled()
    ensures
      var item := Obj(map["name" := Str("A"), "quantity" := Int(2), "price" := Int(10)]);
      var data := Obj(map["total_amount" := Int(5), "line_items" := Arr([item])]);
      && RenderInvoice(Some(data)).Ok?
      && RenderInvoice(Some(data)).value.Details?
      && RenderInvoice(Some(data)).value.rows[0].amount == Some(20.0)
      && RenderInvoice(Some(data)).value.totalRow == Int(5)
  {
    var item := Obj(map["name" := Str("A"), "quantity" := Int(2), "price" := Int(10)]);
    var data := Obj(map["total_amount" := Int(5), "line_items" := Arr([item])]);
    ExampleData(item);
    ExampleRow();
    OneRowPerItem(Some(data));
  }

  lemma ExampleData(item: Value)
    ensures var data := Obj(map["total_amount" := Int(5), "line_items" := Arr([item])]);
            && LineItemsOf(data) == [item] && TotalOf(data) == Int(5)
            && HeaderValue(data, "invoice_number") == Str(NotAvailable)
            && HeaderValue(data, "date") == Str(NotAvailable)
            && HeaderValue(data, "vendor") == Str(NotAvailable)
  {
  }
}
