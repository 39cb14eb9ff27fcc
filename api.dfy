/** The Flask route `/api/process-invoice` (finguardai/api.py): the file-type check and the ladder of
    responses, with the upload folder reduced to the set of paths stored in it. */
module Api {
  import opened Wrappers
  import opened Json
  import opened Text
  import opened Python
  import opened Fences
  import opened Extraction
  import opened RiskScreen

  const AllowedExtensions: set<string> := {"png", "jpg", "jpeg", "pdf"}

  /** `filename.rsplit('.', 1)[1]`: the text after the last dot. */
  function Extension(name: string): (r: string)
    requires '.' in name
    ensures |r| < |name| && name[|name| - |r| - 1] == '.' && name[|name| - |r|..] == r && '.' !in r
    decreases |name|
  {
    if name[|name| - 1] == '.' then []
    else
      var init := name[..|name| - 1];
      assert '.' in init by {
        var i :| 0 <= i < |name| && name[i] == '.';
        assert init[i] == '.';
      }
      Extension(init) + [name[|name| - 1]]
  }

  /** allowed_file: a dot, and after the last one an allowed extension in any letter case. */
  predicate AllowedFile(name: string) {
    '.' in name && Lower(Extension(name)) in AllowedExtensions
  }

  /** Whatever stands before the last dot, the extension is what follows it. */
  lemma {:induction false} ExtensionAfterLastDot(stem: string, ext: string)
    requires '.' !in ext
    ensures Extension(stem + "." + ext) == ext
    decreases |ext|
  {
    var name := stem + "." + ext;
    if ext != [] {
      var init := ext[..|ext| - 1];
      assert name[..|name| - 1] == stem + "." + init;
      assert name[|name| - 1] == ext[|ext| - 1];
      ExtensionAfterLastDot(stem, init);
      assert init + [ext[|ext| - 1]] == ext;
    }
  }

  /** A file is allowed exactly when some dot in its name is followed by dot-free text that lower-cases
      to png, jpg, jpeg or pdf. */
  lemma AllowedFileIff(name: string)
    ensures AllowedFile(name) <==>
            exists i :: 0 <= i < |name| && name[i] == '.' && '.' !in name[i + 1..]
                        && Lower(name[i + 1..]) in AllowedExtensions
  {
    if AllowedFile(name) {
      var e := Extension(name);
      var i := |name| - |e| - 1;
      assert name[i + 1..] == e;
    }
    if exists i :: 0 <= i < |name| && name[i] == '.' && '.' !in name[i + 1..]
                   && Lower(name[i + 1..]) in AllowedExtensions {
      var i :| 0 <= i < |name| && name[i] == '.' && '.' !in name[i + 1..]
               && Lower(name[i + 1..]) in AllowedExtensions;
      ExtensionAtDot(name, i);
    }
  }

  /** A dot with no dot after it is the last one. */
  lemma ExtensionAtDot(name: string, i: nat)
    requires i < |name| && name[i] == '.' && '.' !in name[i + 1..]
    ensures '.' in name && Extension(name) == name[i + 1..]
  {
    SplitAt(name, i);
    ExtensionAfterLastDot(name[..i], name[i + 1..]);
  }

  lemma SplitAt(name: string, i: nat)
    requires i < |name| && name[i] == '.'
    ensures name == name[..i] + "." + name[i + 1..]
  {
    assert name[..i] + [name[i]] + name[i + 1..] == name;
  }

  /** Whatever stands before the last dot, only the extension decides. */
  lemma AllowedByExtension(stem: string, ext: string)
    requires '.' !in ext
    ensures AllowedFile(stem + "." + ext) <==> Lower(ext) in AllowedExtensions
  {
    assert '.' in stem + "." + ext by { assert (stem + "." + ext)[|stem|] == '.'; }
    ExtensionAfterLastDot(stem, ext);
  }

  /** Upper-case extensions pass. */
  lemma UpperCaseAllowed()
    ensures AllowedFile("scan.PDF")
  {
    assert "scan.PDF" == "scan" + "." + "PDF";
    AllowedByExtension("scan", "PDF");
    assert Lower("PDF") == "pdf";
  }

  /** Only the last dot counts. */
  lemma LastDotAllowed()
    ensures AllowedFile("archive.tar.pdf")
  {
    assert "archive.tar.pdf" == "archive.tar" + "." + "pdf";
    AllowedByExtension("archive.tar", "pdf");
    assert Lower("pdf") == "pdf";
  }

  /** A name that is only a dot and an extension is allowed. */
  lemma LeadingDotAllowed()
    ensures AllowedFile(".jpeg")
  {
    assert ".jpeg" == "" + "." + "jpeg";
    AllowedByExtension("", "jpeg");
    assert Lower("jpeg") == "jpeg";
  }

  /** A name without a dot is refused. */
  lemma NoDotRejected()
    ensures !AllowedFile("pdf")
  {
    assert forall k :: 0 <= k < |"pdf"| ==> "pdf"[k] != '.';
  }

  /** The extension after the last dot decides, even when an allowed one comes before it. */
  lemma LaterExtensionRejected()
    ensures !AllowedFile("invoice.pdf.exe")
  {
    assert "invoice.pdf.exe" == "invoice.pdf" + "." + "exe";
    AllowedByExtension("invoice.pdf", "exe");
    assert Lower("exe") == "exe";
  }

  /** Nothing after the last dot is refused. */
  lemma EmptyExtensionRejected()
    ensures !AllowedFile("invoice.")
  {
    assert "invoice." == "invoice" + "." + "";
    AllowedByExtension("invoice", "");
  }

  datatype Method = Options | Post

  /** The request: its HTTP method and the filename of its 'invoice' file part, if there is one. */
  datatype Request = Request(verb: Method, invoice: Option<string>)

  datatype Response = Response(status: int, body: Value)

  /** What lies outside the route: where secure_filename and os.path.join put the upload, whether
      saving it raises, the two replies of the language model, json.loads and the SHA-256 digest. */
  datatype Backend = Backend(
    pathFor: string -> string,
    saveError: Option<string>,
    extraction: Upstream,
    risk: Upstream,
    loads: string -> Parsed,
    hash: map<string, Value> -> string)

  function Failure(status: int, error: Value): Response {
    Response(status, Obj(map["success" := Bool(false), "error" := error]))
  }

  /** The request carries a usable file and the route goes on to save it (lines 101-103). */
  predicate Accepted(req: Request) {
    req.verb == Post && req.invoice.Some? && req.invoice.value != "" && AllowedFile(req.invoice.value)
  }

  /** The dict extract_invoice_data returns for this backend. */
  function InvoiceData(env: Backend): map<string, Value> {
    Record(Extract(env.extraction, env.loads))
  }

  /** The "data" of a successful answer. */
  function Payload(invoiceData: map<string, Value>, env: Backend): map<string, Value> {
    map[
      "invoice_data" := Obj(invoiceData),
      "risk_assessment" := Assess(invoiceData, env.risk, env.loads),
      "action_hash" := Str(env.hash(invoiceData))]
  }

  /** process_invoice (lines 80-159): the answer to a request. */
  function Respond(req: Request, env: Backend): Response {
    if req.verb == Options then Response(200, Obj(map["success" := Bool(true)]))
    else if req.invoice.None? then Failure(400, Str("No invoice file provided"))
    else if req.invoice.value == "" then Failure(400, Str("No selected file"))
    else if !AllowedFile(req.invoice.value) then Failure(400, Str("Invalid file type"))
    else if env.saveError.Some? then Failure(500, Str(env.saveError.value))
    else
      var invoiceData := InvoiceData(env);
      if "error" in invoiceData then Failure(400, invoiceData["error"])
      else
        Response(200, Obj(map["success" := Bool(true), "data" := Obj(Payload(invoiceData, env))]))
  }

  /** The uploads stored after the request: the upload is removed after success and after an exception,
      and stays when extraction reports an error. */
  function StoredAfter(req: Request, env: Backend, before: set<string>): set<string> {
    if !Accepted(req) then before
    else
      var path := env.pathFor(req.invoice.value);
      if env.saveError.None? && "error" in InvoiceData(env) then before + {path}
      else before - {path}
  }

  /** The upload folder. */
  class Server {
    var uploads: set<string>

    /** The folder as os.makedirs(..., exist_ok=True) finds it: whatever it already holds stays. */
    constructor(existing: set<string>)
      ensures uploads == existing
    {
      uploads := existing;
    }

    /** process_invoice: answers the request and updates the upload folder. */
    method ProcessInvoice(req: Request, env: Backend) returns (resp: Response)
      modifies this
      ensures resp == Respond(req, env)
      ensures uploads == StoredAfter(req, env, old(uploads))
    {
      if req.verb == Options {
        return Response(200, Obj(map["success" := Bool(true)]));
      }
      if req.invoice.None? {
        return Failure(400, Str("No invoice file provided"));
      }
      var filename := req.invoice.value;
      if filename == "" {
        return Failure(400, Str("No selected file"));
      }
      if !AllowedFile(filename) {
        return Failure(400, Str("Invalid file type"));
      }
      var path := env.pathFor(filename);
      if env.saveError.Some? {
        uploads := uploads - {path};
        return Failure(500, Str(env.saveError.value));
      }
      uploads := uploads + {path};
      var invoiceData := ExtractInvoiceData(env.extraction, env.loads);
      if "error" in invoiceData {
        return Failure(400, invoiceData["error"]);
      }
      var riskAssessment := AssessRisk(invoiceData, env.risk, env.loads);
      var actionHash := env.hash(invoiceData);
      var data := map[
        "invoice_data" := Obj(invoiceData),
        "risk_assessment" := riskAssessment,
        "action_hash" := Str(actionHash)];
      var result := Obj(map["success" := Bool(true), "data" := Obj(data)]);
      uploads := uploads - {path};
      return Response(200, result);
    }
  }

  // ---- What the route promises ----

  /** extract_invoice_data's dict holds "error" when extraction failed, or when the invoice itself has
      such a key. */
  lemma ErrorInRecord(env: Backend)
    ensures "error" in InvoiceData(env) <==>
            Extract(env.extraction, env.loads).Err? || "error" in Extract(env.extraction, env.loads).value.fields
  {
  }

  /** Every response is 200, 400 or 500, with "success" telling which. */
  lemma StatusCodes(req: Request, env: Backend)
    ensures var r := Respond(req, env);
            && r.status in {200, 400, 500}
            && r.body.Obj? && "success" in r.body.fields
            && (r.body.fields["success"] == Bool(true) <==> r.status == 200)
  {
    var r := Respond(req, env);
    if r.status != 200 {
      FailureShape(r.status, r.body.fields["error"]);
      assert r == Failure(r.status, r.body.fields["error"]);
    }
  }

  lemma FailureShape(status: int, error: Value)
    ensures Failure(status, error).body.Obj? && "success" in Failure(status, error).body.fields
    ensures Failure(status, error).body.fields["success"] == Bool(false)
  {
  }

  /** 500 exactly when saving a usable upload raises; 200 for a POST exactly when the upload is saved
      and extraction yields an invoice without an "error" key. */
  lemma StatusLadder(req: Request, env: Backend)
    ensures Respond(req, env).status == 500 <==> Accepted(req) && env.saveError.Some?
    ensures req.verb == Post ==>
              (Respond(req, env).status == 200 <==>
                 Accepted(req) && env.saveError.None? && Extract(env.extraction, env.loads).Ok?
                 && "error" !in Extract(env.extraction, env.loads).value.fields)
  {
    ServerErrorStatus(req, env);
    if req.verb == Post {
      SuccessStatus(req, env);
    }
  }

  lemma ServerErrorStatus(req: Request, env: Backend)
    ensures Respond(req, env).status == 500 <==> Accepted(req) && env.saveError.Some?
  {
  }

  lemma SuccessStatus(req: Request, env: Backend)
    requires req.verb == Post
    ensures Respond(req, env).status == 200 <==> Accepted(req) && env.saveError.None? && "error" !in InvoiceData(env)
    ensures "error" !in InvoiceData(env) <==>
              Extract(env.extraction, env.loads).Ok? && "error" !in Extract(env.extraction, env.loads).value.fields
  {
    ErrorInRecord(env);
  }

  /** A successful POST carries the validated invoice, an assessment holding the three fields, and the
      digest of the invoice, under exactly those three keys. */
  lemma SuccessBody(req: Request, env: Backend)
    requires req.verb == Post && Respond(req, env).status == 200
    ensures var body := Respond(req, env).body;
            && body.Obj? && "data" in body.fields && body.fields["data"].Obj?
            && body.fields["data"].fields.Keys == {"invoice_data", "risk_assessment", "action_hash"}
            && WellFormed(body.fields["data"].fields["invoice_data"])
            && HasRiskFields(body.fields["data"].fields["risk_assessment"])
            && body.fields["data"].fields["action_hash"] == Str(env.hash(InvoiceData(env)))
  {
    StatusLadder(req, env);
    ErrorInRecord(env);
    SuccessPayload(req, env);
    ExtractedWellFormed(env);
    PayloadShape(InvoiceData(env), env);
  }

  lemma SuccessPayload(req: Request, env: Backend)
    requires Accepted(req) && env.saveError.None? && "error" !in InvoiceData(env)
    ensures Respond(req, env).body == Obj(map["success" := Bool(true), "data" := Obj(Payload(InvoiceData(env), env))])
  {
  }

  lemma PayloadShape(d: map<string, Value>, env: Backend)
    ensures Payload(d, env).Keys == {"invoice_data", "risk_assessment", "action_hash"}
    ensures Payload(d, env)["invoice_data"] == Obj(d)
    ensures HasRiskFields(Payload(d, env)["risk_assessment"])
  {
    AssessHasFields(d, env.risk, env.loads);
  }

  /** What extraction hands on is a validated invoice. */
  lemma ExtractedWellFormed(env: Backend)
    requires Extract(env.extraction, env.loads).Ok?
    ensures WellFormed(Obj(InvoiceData(env)))
    ensures Obj(InvoiceData(env)) == Extract(env.extraction, env.loads).value
  {
    assert env.extraction.Reply? && env.loads(ExtractionJsonText(env.extraction.content)).Parsed?;
    ValidateIff(env.loads(ExtractionJsonText(env.extraction.content)).value);
  }

  /** Requests turned away before the save answer the same whatever the backend does, and store nothing. */
  lemma EarlyRejectionsIgnoreBackend(req: Request, env1: Backend, env2: Backend, before: set<string>)
    requires !Accepted(req)
    ensures Respond(req, env1) == Respond(req, env2)
    ensures StoredAfter(req, env1, before) == before
  {
  }

  /** The checks run in order: OPTIONS is answered before the file part is looked at, a missing part
      before an empty name, an empty name before the file type. */
  lemma LadderOrder(filename: Option<string>, env: Backend)
    ensures Respond(Request(Options, filename), env) == Response(200, Obj(map["success" := Bool(true)]))
    ensures Respond(Request(Post, None), env) == Failure(400, Str("No invoice file provided"))
    ensures Respond(Request(Post, Some("")), env) == Failure(400, Str("No selected file"))
    ensures filename.Some? && filename.value != "" && !AllowedFile(filename.value) ==>
              Respond(Request(Post, filename), env) == Failure(400, Str("Invalid file type"))
  {
  }

  /** Only the request's own upload path can change, and it is left behind exactly when extraction
      reports an error. */
  lemma UploadCleanup(req: Request, env: Backend, before: set<string>)
    requires Accepted(req)
    ensures var path := env.pathFor(req.invoice.value);
            var after := StoredAfter(req, env, before);
            && (forall p :: p != path ==> (p in after <==> p in before))
            && (path in after <==> Respond(req, env).status == 400)
  {
    if env.saveError.None? && "error" in InvoiceData(env) {
      assert Respond(req, env).status == 400;
    } else if env.saveError.Some? {
      assert Respond(req, env).status == 500;
    } else {
      assert Respond(req, env).status == 200;
    }
  }

  /** When extraction reports an error, the answer does not depend on the risk reply or the digest. */
  lemma ExtractionErrorIgnoresRisk(req: Request, env: Backend, risk: Upstream, hash: map<string, Value> -> string)
    requires Accepted(req) && env.saveError.None? && Extract(env.extraction, env.loads).Err?
    ensures Respond(req, env) == Respond(req, env.(risk := risk, hash := hash))
    ensures Respond(req, env) == Failure(400, Str(Message(Extract(env.extraction, env.loads).error)))
  {
    var other := env.(risk := risk, hash := hash);
    assert other.extraction == env.extraction && other.loads == env.loads && other.saveError == env.saveError;
    assert InvoiceData(other) == InvoiceData(env) == ErrorRecord(Extract(env.extraction, env.loads).error);
  }

  /** `"error" in invoice_data` also catches a valid invoice whose JSON happens to hold an "error" key:
      the route answers 400 with that value, though extraction succeeded. */
  lemma ErrorKeyRejectsValidInvoice(req: Request, env: Backend)
    requires Accepted(req) && env.saveError.None?
    requires Extract(env.extraction, env.loads).Ok? && "error" in Extract(env.extraction, env.loads).value.fields
    ensures WellFormed(Extract(env.extraction, env.loads).value)
    ensures Respond(req, env) == Failure(400, Extract(env.extraction, env.loads).value.fields["error"])
  {
    assert env.extraction.Reply? && env.loads(ExtractionJsonText(env.extraction.content)).Parsed?;
    ValidateIff(env.loads(ExtractionJsonText(env.extraction.content)).value);
  }
}
