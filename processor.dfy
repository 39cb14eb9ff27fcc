/** The InvoiceProcessor page (frontend/src/components/InvoiceProcessor.jsx): the three state cells
    that handleFileUpload drives, how a response is classified, and the ErrorBoundary latch. */
module Processor {
  import opened Wrappers
  import opened Json
  import opened Js

  /** What the two awaits produce: fetch rejects with a message, or the response has a status and
      response.json() either parses the body or rejects with the parser's message. */
  datatype Fetched = NetworkFailure(message: string) | Received(status: int, body: Parsed)

  /** The end of the try block: the data to keep, or the message of the error caught. */
  datatype Completion = ShowResults(data: Value) | ShowError(message: string)

  /** `{error && <Alert>}` (lines 170-180): an empty message shows no alert. */
  predicate ShowsAlert(error: Option<string>) {
    error.Some? && error.value != ""
  }

  const MissingInvoiceData: string := "Invalid response: missing invoice data"
  const DefaultFailure: string := "Failed to process invoice"

  /** `throw new Error(result.error || 'Failed to process invoice')`, where reading from a null
      result throws first. */
  function Rejected(result: Value): Completion {
    match Field(result, "error")
    case Err(m) => ShowError(m)
    case Ok(e) => ShowError(if Present(e) then JsText(e.value) else DefaultFailure)
  }

  /** Lines 53-75: how one response ends the upload. */
  function Complete(f: Fetched): Completion {
    match f
    case NetworkFailure(m) => ShowError(m)
    case Received(_, Malformed(m)) => ShowError(m)
    case Received(status, Parsed(result)) =>
      if status != 200 then Rejected(result)
      else
        match Field(result, "success")
        case Err(m) => ShowError(m)
        case Ok(success) =>
          if !Present(success) then Rejected(result)
          else
            var data := Field(result, "data").value;
            if Present(data) && Present(Field(data.value, "invoice_data").value) then ShowResults(data.value)
            else ShowError(MissingInvoiceData)
  }

  /** The page's state: the spinner, the error alert and the results. */
  class InvoiceProcessor {
    var loading: bool
    var error: Option<string>
    var results: Option<Value>

    /** The spinner never shows with a message or results, and a message never shows with results. */
    predicate Consistent()
      reads this
    {
      && !(error.Some? && results.Some?)
      && (loading ==> error.None? && results.None?)
    }

    /** Lines 38-40. */
    constructor()
      ensures !loading && error == None && results == None
      ensures Consistent()
    {
      loading := false;
      error := None;
      results := None;
    }

    /** Lines 44-46. */
    method StartUpload()
      modifies this
      ensures loading && error == None && results == None
      ensures Consistent()
    {
      loading := true;
      error := None;
      results := None;
    }

    /** Lines 62-77: the response is classified, one cell is set, and the spinner is turned off. */
    method CompleteUpload(f: Fetched)
      modifies this
      ensures !loading
      ensures Complete(f).ShowResults? ==> results == Some(Complete(f).data) && error == old(error)
      ensures Complete(f).ShowError? ==> error == Some(Complete(f).message) && results == old(results)
    {
      var thrown: Option<string> := None;
      match f {
        case NetworkFailure(m) =>
          thrown := Some(m);
        case Received(status, body) =>
          if body.Malformed? {
            thrown := Some(body.message);
          } else {
            var result := body.value;
            var succeeded := false;
            if status == 200 {
              var success := Field(result, "success");
              if success.Err? {
                thrown := Some(success.error);
              } else {
                succeeded := Present(success.value);
              }
            }
            if thrown.None? {
              if succeeded {
                var data := Field(result, "data").value;
                if Present(data) && Present(Field(data.value, "invoice_data").value) {
                  results := data;
                } else {
                  thrown := Some(MissingInvoiceData);
                }
              } else {
                var e := Field(result, "error");
                if e.Err? {
                  thrown := Some(e.error);
                } else {
                  thrown := Some(if Present(e.value) then JsText(e.value.value) else DefaultFailure);
                }
              }
            }
          }
      }
      if thrown.Some? {
        error := thrown;
      }
      loading := false;
    }

    /** handleFileUpload (lines 42-79) with the response already awaited. */
    method HandleFileUpload(f: Fetched)
      modifies this
      ensures !loading && Consistent()
      ensures results == (if Complete(f).ShowResults? then Some(Complete(f).data) else None)
      ensures error == (if Complete(f).ShowError? then Some(Complete(f).message) else None)
    {
      StartUpload();
      CompleteUpload(f);
    }
  }

  // ---- How responses are classified ----

  /** Results are kept exactly when the status is 200, the body is an object whose `success` is
      truthy, and its `data` is an object with a truthy `invoice_data`; what is kept is that `data`. */
  lemma ResultsIff(f: Fetched)
    ensures Complete(f).ShowResults? <==>
            && f.Received? && f.status == 200 && f.body.Parsed? && f.body.value.Obj?
            && "success" in f.body.value.fields && Truthy(f.body.value.fields["success"])
            && "data" in f.body.value.fields && f.body.value.fields["data"].Obj?
            && "invoice_data" in f.body.value.fields["data"].fields
            && Truthy(f.body.value.fields["data"].fields["invoice_data"])
    ensures Complete(f).ShowResults? ==> Complete(f).data == f.body.value.fields["data"]
  {
  }

  /** A 200 response that says success but carries no invoice data is an error with a fixed message. */
  lemma MissingInvoiceDataReported(m: map<string, Value>)
    requires "success" in m && Truthy(m["success"])
    requires !("data" in m && m["data"].Obj? && "invoice_data" in m["data"].fields
               && Truthy(m["data"].fields["invoice_data"]))
    ensures Complete(Received(200, Parsed(Obj(m)))) == ShowError(MissingInvoiceData)
  {
  }

  /** Any other object response reports its `error` as String() writes it, or the default message. */
  lemma RejectionReported(status: int, m: map<string, Value>)
    requires status != 200 || !("success" in m && Truthy(m["success"]))
    ensures Complete(Received(status, Parsed(Obj(m)))) ==
            ShowError(if "error" in m && Truthy(m["error"]) then JsText(m["error"]) else DefaultFailure)
  {
  }

  /** A body that parses to null throws on the first property read, which depends on the status. */
  lemma NullBodyReported(status: int)
    ensures Complete(Received(status, Parsed(Null))) ==
            ShowError("Cannot read properties of null (reading '" + (if status == 200 then "success" else "error") + "')")
  {
  }

  /** A rejected fetch or an unparsable body shows the caught message as it is. */
  lemma TransportFailureReported(status: int, m: string)
    ensures Complete(NetworkFailure(m)) == ShowError(m)
    ensures Complete(Received(status, Malformed(m))) == ShowError(m)
  {
  }

  /** An `error` that is an empty array is truthy, yet String() of it is empty: the upload fails and
      the page shows no alert. */
  lemma EmptyArrayErrorShowsNothing()
    ensures Complete(Received(400, Parsed(Obj(map["error" := Arr([])])))) == ShowError("")
    ensures !ShowsAlert(Some(Complete(Received(400, Parsed(Obj(map["error" := Arr([])])))).message))
  {
    assert JsText(Arr([])) == "";
  }

  // ---- The error boundary ----

  /** What a child produced when rendered: its view, or the message of what it threw. */
  datatype Rendered<V> = View(view: V) | Threw(message: string)

  /** What the boundary shows: its children, or the alert in their place. */
  datatype Shown<V> = Children(view: V) | Alert(text: string)

  /** Line 26: `error?.message`, where an absent message renders as nothing. */
  function AlertText(error: Option<string>): string {
    "Something went wrong: " + (if error.Some? then error.value else "")
  }

  /** One render of the boundary, from its state (hasError, error) to its new state and what it shows. */
  function BoundaryStep<V>(hasError: bool, error: Option<string>, child: Rendered<V>): (bool, Option<string>, Shown<V>) {
    if hasError then (true, error, Alert(AlertText(error)))
    else if child.Threw? then (true, Some(child.message), Alert(AlertText(Some(child.message))))
    else (false, error, Children(child.view))
  }

  /** What a fresh boundary shows over a sequence of renders. */
  function Renders<V>(children: seq<Rendered<V>>): (shown: seq<Shown<V>>)
    ensures |shown| == |children|
  {
    RendersFrom(false, None, children)
  }

  function RendersFrom<V>(hasError: bool, error: Option<string>, children: seq<Rendered<V>>): (shown: seq<Shown<V>>)
    ensures |shown| == |children|
    decreases |children|
  {
    if children == [] then []
    else
      var (h, e, s) := BoundaryStep(hasError, error, children[0]);
      [s] + RendersFrom(h, e, children[1..])
  }

  /** The latch: the children are shown until the first render that throws; from then on, whatever
      the children do, the alert shows that first message. */
  lemma {:induction false} BoundaryLatches<V>(children: seq<Rendered<V>>, first: nat)
    requires first < |children| && children[first].Threw?
    requires forall k :: 0 <= k < first ==> children[k].View?
    ensures forall k :: 0 <= k < first ==> Renders(children)[k] == Children(children[k].view)
    ensures forall k :: first <= k < |children| ==>
              Renders(children)[k] == Alert(AlertText(Some(children[first].message)))
  {
    FreshPrefix(children, first);
  }

  lemma {:induction false} FreshPrefix<V>(children: seq<Rendered<V>>, first: nat)
    requires first < |children| && children[first].Threw?
    requires forall k :: 0 <= k < first ==> children[k].View?
    ensures forall k :: 0 <= k < first ==> RendersFrom(false, None, children)[k] == Children(children[k].view)
    ensures forall k :: first <= k < |children| ==>
              RendersFrom(false, None, children)[k] == Alert(AlertText(Some(children[first].message)))
    decreases first
  {
    var rest := RendersFrom(false, None, children[1..]);
    if first == 0 {
      var m := children[0].message;
      Latched(m, children[1..]);
      assert RendersFrom(false, None, children) == [Alert(AlertText(Some(m)))] + RendersFrom(true, Some(m), children[1..]);
    } else {
      assert forall k :: 0 <= k < first - 1 ==> children[1..][k] == children[k + 1];
      FreshPrefix(children[1..], first - 1);
      assert RendersFrom(false, None, children) == [Children(children[0].view)] + rest;
    }
  }

  lemma {:induction false} Latched<V>(m: string, children: seq<Rendered<V>>)
    ensures forall k :: 0 <= k < |children| ==> RendersFrom(true, Some(m), children)[k] == Alert(AlertText(Some(m)))
    decreases |children|
  {
    if children != [] {
      Latched(m, children[1..]);
    }
  }

  /** The ErrorBoundary component (lines 11-33). */
  class ErrorBoundary {
    var hasError: bool
    var error: Option<string>

    /** Line 14. */
    constructor()
      ensures !hasError && error == None
    {
      hasError := false;
      error := None;
    }

    /** render, with getDerivedStateFromError run when the children throw (lines 17-31). */
    method Render<V>(child: Rendered<V>) returns (shown: Shown<V>)
      modifies this
      ensures (hasError, error, shown) == BoundaryStep(old(hasError), old(error), child)
    {
      if !hasError && child.Threw? {
        hasError := true;
        error := Some(child.message);
      }
      if hasError {
        return Alert(AlertText(error));
      }
      return Children(child.view);
    }
  }
}
