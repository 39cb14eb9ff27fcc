/** What the page shows for what the route answers: the response of process_invoice
    (finguardai/api.py) classified by handleFileUpload, the invoice table InvoiceResults draws for a
    validated invoice, and what RiskAssessment draws for the answers assess_risk can give. The JSON
    body is taken to reach the page as the route built it. */
module Pipeline {
  import opened Wrappers
  import opened Json
  import opened Python
  import opened Text
  import opened Fences
  import opened Extraction
  import opened RiskScreen
  import opened Api
  import opened Js
  import opened Processor
  import opened RiskView
  import opened InvoiceView

  // ---- From the route to the page's state ----

  /** A successful POST puts the route's whole "data" object into the page's results, and the
      invoice it holds is not the no-data view. */
  lemma SuccessShowsResults(req: Request, env: Backend)
    requires req.verb == Post && Respond(req, env).status == 200
    ensures Complete(Received(200, Parsed(Respond(req, env).body))) == ShowResults(Obj(Payload(InvoiceData(env), env)))
    ensures RenderInvoice(Some(Obj(InvoiceData(env)))) != Ok(NoData)
  {
    SuccessBodyIs(req, env);
    PayloadReachesPage(InvoiceData(env), env);
    ObjectIsData(InvoiceData(env));
  }

  lemma ObjectIsData(d: map<string, Value>)
    ensures RenderInvoice(Some(Obj(d))) != Ok(NoData)
  {
    NoDataIff(Some(Obj(d)));
  }

  lemma SuccessBodyIs(req: Request, env: Backend)
    requires req.verb == Post && Respond(req, env).status == 200
    ensures Respond(req, env).body == Obj(map["success" := Bool(true), "data" := Obj(Payload(InvoiceData(env), env))])
  {
    StatusLadder(req, env);
    ErrorInRecord(env);
    SuccessPayload(req, env);
  }

  lemma PayloadReachesPage(d: map<string, Value>, env: Backend)
    ensures var body := Obj(map["success" := Bool(true), "data" := Obj(Payload(d, env))]);
            Complete(Received(200, Parsed(body))) == ShowResults(Obj(Payload(d, env)))
  {
    PayloadShape(d, env);
    ResultsIff(Received(200, Parsed(Obj(map["success" := Bool(true), "data" := Obj(Payload(d, env))]))));
  }

  /** Every other answer ends the upload with the route's "error" as String() writes it, or the
      default message when that error is falsy (an exception with an empty message, say). */
  lemma RejectionShowsError(req: Request, env: Backend)
    requires Respond(req, env).status != 200
    ensures var r := Respond(req, env);
            && r.body.Obj? && "error" in r.body.fields
            && Complete(Received(r.status, Parsed(r.body))) ==
                 ShowError(if Truthy(r.body.fields["error"]) then JsText(r.body.fields["error"]) else DefaultFailure)
  {
    var r := Respond(req, env);
    assert r == Failure(r.status, r.body.fields["error"]);
    RejectionReported(r.status, r.body.fields);
  }

  /** The fixed messages of the ladder reach the alert as they are. */
  lemma LadderMessagesShown(filename: string, env: Backend)
    ensures Complete(Received(400, Parsed(Respond(Request(Post, None), env).body))) == ShowError("No invoice file provided")
    ensures Complete(Received(400, Parsed(Respond(Request(Post, Some("")), env).body))) == ShowError("No selected file")
    ensures filename != "" && !AllowedFile(filename) ==>
              Complete(Received(400, Parsed(Respond(Request(Post, Some(filename)), env).body))) == ShowError("Invalid file type")
  {
  }

  // ---- The invoice table for a validated invoice ----

  /** The amounts of the rows, added up from the first. */
  function AmountSum(rows: seq<Row>): real
    requires forall k :: 0 <= k < |rows| ==> rows[k].amount.Some?
  {
    if rows == [] then 0.0 else AmountSum(rows[..|rows| - 1]) + rows[|rows| - 1].amount.value
  }

  /** A number the validation accepts as positive is truthy, and `*` reads it as the same number. */
  lemma PositiveIsTruthy(v: Value)
    requires Positive(v)
    ensures Truthy(v) && ToNumber(v) == Some(AsNumber(v).value.val)
  {
  }

  /** `*` reads a numeric total as the number the validation compared, even a falsy zero. */
  lemma TotalReadsAsNumber(d: map<string, Value>)
    requires "total_amount" in d && AsNumber(d["total_amount"]).Some?
    ensures ToNumber(TotalOf(Obj(d))) == Some(AsNumber(d["total_amount"]).value.val)
  {
  }

  /** The page's amount for a validated item is the price × quantity the validation added up. */
  lemma ValidItemAmount(item: Value)
    requires ValidItem(item) && RowFor(item).Ok?
    ensures RowFor(item).value.amount.Some? && RowFor(item).value.amount.value == Amount(item)
  {
    RawAmount(item);
  }

  lemma RawAmount(item: Value)
    requires ValidItem(item)
    ensures RawRowOf(item).Ok? && RawRowOf(item).value.amount.Some? && RawRowOf(item).value.amount.value == Amount(item)
  {
    var price := item.fields["price"];
    var quantity := item.fields["quantity"];
    PositiveIsTruthy(price);
    PositiveIsTruthy(quantity);
    var a := AsNumber(price).value.val;
    var b := AsNumber(quantity).value.val;
    assert Field(item, "price").value == Some(price) && Field(item, "quantity").value == Some(quantity);
    assert Money(Some(price)) == price && Or(Some(quantity), Int(1)) == quantity;
    assert RawRowOf(item).value.amount == Product(Some(a), Some(b));
  }

  /** The rows of valid items carry their price × quantity. */
  lemma RowAmounts(items: seq<Value>, rows: seq<Row>)
    requires |rows| == |items|
    requires forall k :: 0 <= k < |items| ==> ValidItem(items[k])
    requires forall k :: 0 <= k < |items| ==> RowFor(items[k]) == Ok(rows[k])
    ensures forall k :: 0 <= k < |items| ==> rows[k].amount.Some? && rows[k].amount.value == Amount(items[k])
  {
    forall k | 0 <= k < |items|
      ensures rows[k].amount.Some? && rows[k].amount.value == Amount(items[k])
    {
      ValidItemAmount(items[k]);
    }
  }

  /** Those amounts add up to the sum the validation compared with the total. */
  lemma {:induction false} AmountsAddUp(items: seq<Value>, rows: seq<Row>)
    requires |rows| == |items|
    requires forall k :: 0 <= k < |items| ==> ValidItem(items[k])
    requires forall k :: 0 <= k < |items| ==> rows[k].amount.Some? && rows[k].amount.value == Amount(items[k])
    ensures AmountSum(rows) == LineSum(items)
  {
    if items != [] {
      var n := |items| - 1;
      AmountsAddUp(items[..n], rows[..n]);
    }
  }

  /** For an invoice the extraction accepted, the table has one row per line item and its amounts add
      up to within 0.01 of the total it shows: the check the page itself leaves out was made upstream. */
  lemma ValidatedInvoiceTable(d: map<string, Value>, view: InvoiceView)
    requires WellFormed(Obj(d)) && RenderInvoice(Some(Obj(d))) == Ok(view)
    ensures view.Details? && |view.rows| == |d["line_items"].items|
    ensures forall k :: 0 <= k < |view.rows| ==> view.rows[k].amount.Some?
    ensures ToNumber(view.total).Some?
    ensures Abs(AmountSum(view.rows) - ToNumber(view.total).value) <= Tolerance
  {
    TableRows(d, view);
    RowAmounts(d["line_items"].items, view.rows);
    TotalShownAsGiven(Some(Obj(d)));
    TableAddsUp(d, view);
  }

  /** The same, for the view the render produced. */
  lemma TableAddsUp(d: map<string, Value>, view: InvoiceView)
    requires WellFormed(Obj(d)) && view.Details? && view.total == TotalOf(Obj(d))
    requires |view.rows| == |d["line_items"].items|
    requires forall k :: 0 <= k < |d["line_items"].items| ==>
               view.rows[k].amount.Some? && view.rows[k].amount.value == Amount(d["line_items"].items[k])
    ensures forall k :: 0 <= k < |view.rows| ==> view.rows[k].amount.Some?
    ensures ToNumber(view.total).Some?
    ensures Abs(AmountSum(view.rows) - ToNumber(view.total).value) <= Tolerance
  {
    AmountsAddUp(d["line_items"].items, view.rows);
    TotalReadsAsNumber(d);
  }

  lemma TableRows(d: map<string, Value>, view: InvoiceView)
    requires WellFormed(Obj(d)) && RenderInvoice(Some(Obj(d))) == Ok(view)
    ensures var items := d["line_items"].items;
            && view.Details? && |view.rows| == |items|
            && forall k :: 0 <= k < |items| ==> RowFor(items[k]) == Ok(view.rows[k])
  {
    OneRowPerItem(Some(Obj(d)));
    ArrayItems(d);
  }

  lemma ArrayItems(d: map<string, Value>)
    requires "line_items" in d && d["line_items"].Arr?
    ensures LineItemsOf(Obj(d)) == d["line_items"].items
  {
  }


  // ---- The assessment panel for what assess_risk answers ----

  /** The answer after an exception shows LOW with its two findings as plain entries. */
  lemma FailureFallbackRenders(reason: string)
    ensures RenderAssessment(Some(FailureFallback(reason))) ==
            Ok(AssessmentView("LOW", SuccessColor, CheckCircleIcon, Float(0.6),
                              [Entry("Error in risk assessment: " + reason, None, ""),
                               Entry("Defaulting to low risk due to assessment failure", None, "")]))
  {
    var a := Some(FailureFallback(reason));
    FailureFallbackReads(reason);
    PlainFindings(a);
    EmptyLevelIsLow();
    LowLabel();
    var view := RenderAssessment(a).value;
    assert view.entries == [Entry("Error in risk assessment: " + reason, None, ""),
                            Entry("Defaulting to low risk due to assessment failure", None, "")];
  }

  lemma FailureFallbackReads(reason: string)
    ensures var a := Some(FailureFallback(reason));
            && RiskLevelOf(a) == Str("low") && ConfidenceOf(a) == Float(0.6)
            && FindingsOf(a) == Arr([Str("Error in risk assessment: " + reason),
                                     Str("Defaulting to low risk due to assessment failure")])
  {
  }

  lemma LowLabel()
    ensures Upper("low") == "LOW"
  {
  }

  /** The answer to an unparsable reply shows LOW with its one finding. */
  lemma ParseFallbackRenders()
    ensures RenderAssessment(Some(ParseFallback)) ==
            Ok(AssessmentView("LOW", SuccessColor, CheckCircleIcon, Float(0.6),
                              [Entry("Unable to perform detailed risk assessment. Defaulting to low risk.", None, "")]))
  {
    var a := Some(ParseFallback);
    ParseFallbackReads();
    PlainFindings(a);
    EmptyLevelIsLow();
    LowLabel();
    var view := RenderAssessment(a).value;
    assert view.entries == [Entry("Unable to perform detailed risk assessment. Defaulting to low risk.", None, "")];
  }

  lemma ParseFallbackReads()
    ensures var a := Some(ParseFallback);
            && RiskLevelOf(a) == Str("low") && ConfidenceOf(a) == Float(0.6)
            && FindingsOf(a) == Arr([Str("Unable to perform detailed risk assessment. Defaulting to low risk.")])
  {
  }

  /** A reply that parses to the list of the three field names passes assess_risk's check, and the
      panel then shows the defaults: LOW, a zero score and no findings. */
  lemma ListAnswerShowsDefaults(data: map<string, Value>, content: string, loads: string -> Parsed)
    requires Screen(data).Ok?
    requires loads(RiskJsonText(content)) == Parsed(Arr([Str("risk_level"), Str("confidence_score"), Str("findings")]))
    ensures RenderAssessment(Some(Assess(data, Reply(content), loads))) ==
            Ok(AssessmentView("LOW", SuccessColor, CheckCircleIcon, Int(0), []))
  {
    AssessMayReturnList(data, content, loads);
    DefaultsWhenMissing(Some(Assess(data, Reply(content), loads)));
  }
}
