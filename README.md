# FinGuardAI invoice pipeline in Dafny

FinGuardAI takes an uploaded invoice and sends it to the Mistral language model twice. The first
call extracts the invoice's fields. The backend then validates them: the required keys, the line
items, and a total that must match Σ price × quantity. The second call assesses risk, after a local
screening for unusual prices. A Flask route wraps both calls in a ladder of HTTP answers. A React
page uploads the file, classifies the answer and shows the invoice table and the risk panel.

This project models that core and proves what it does:

- `Text`, `Python`, `Js` and `Json` give the language semantics the code relies on. They cover
  Python's `str.strip`, `in`, indexing and `isinstance` numbers, JavaScript truthiness, `||`,
  property reads, `String()` and what React renders for a child.
- `Fences` models the two clean-ups that strip a Markdown code fence from a model reply
  (`finguardai/mistral.py`).
- `Extraction` models `extract_invoice_data` after the model has replied. It has both a functional
  specification and the imperative loops, proved equal to it. Validation is proved equivalent to an
  independent predicate, `WellFormed`.
- `RiskScreen` models `assess_risk`: the average price, the unusual-item and total flags, the field
  check on the model's answer, and the two fallback answers.
- `Api` models `/api/process-invoice` (`finguardai/api.py`). `allowed_file` is one part. The ladder
  of responses is a `Server` class whose upload folder is the set of stored paths.
- `Processor` models `InvoiceProcessor.jsx`. It holds the page's three state cells as a class and
  `handleFileUpload` as its methods, plus the `ErrorBoundary` latch.
- `RiskView` and `InvoiceView` model what `RiskAssessment.jsx` and `InvoiceResults.jsx` render from
  their props, including the exceptions a render throws.
- `Pipeline` connects the route's answers to what the page shows.

## Model

| member | source | states |
|---|---|---|
| Text.Strip | finguardai/mistral.py:97 | the result is the slice of the input left once every leading and trailing character the predicate accepts is gone: only such characters lie outside it, and neither of its ends is one |
| Text.StripUnique | finguardai/mistral.py:228 | strip is determined by those properties: any slice with only dropped characters outside it and kept characters at both its ends is exactly what strip returns |
| Fences.ExtractionIsSlice | finguardai/mistral.py:97-99 | the text handed to json.loads by the extraction clean-up is a contiguous piece of the reply with no whitespace at either end |
| Fences.RiskIsSlice | finguardai/mistral.py:221-228 | the same for the risk clean-up |
| Fences.BareUnchanged | finguardai/mistral.py:97-99 | a reply with nothing to strip (no whitespace or backtick at its ends, no "json" prefix) passes through both clean-ups unchanged |
| Fences.ExtractionUnfences | finguardai/mistral.py:97-99 | the extraction clean-up of "```json\n" + j + "\n```" gives back j for every bare JSON text j (the round trip of the fence the prompt asks for) |
| Fences.ExtractionUnfencesPlain | finguardai/mistral.py:97-99 | the extraction clean-up also gives back j from a fence without the "json" tag |
| Fences.RiskUnfences | finguardai/mistral.py:221-228 | the risk clean-up of "```json\n" + j + "\n```" gives back j |
| Fences.RiskKeepsPlainFence | finguardai/mistral.py:224-228 | the risk clean-up of a fence without the tag yields "```\n" + j: the opening backticks reach json.loads |
| Extraction.CheckFields | finguardai/mistral.py:105-108 | for a dict, passing the field loop means every listed field is a key |
| Extraction.AllIn | finguardai/mistral.py:119 | for a dict, `all(k in item for k in keys)` is whether every key is present |
| Extraction.Validate | finguardai/mistral.py:104-132 | a reply that passes validation is a dict and is returned unchanged |
| Extraction.Extract | finguardai/mistral.py:96-136 | a successful extraction is always a dict |
| Extraction.SumItemsErrorStays | finguardai/mistral.py:118-126 | once a line item fails, the items after it do not change the outcome of the loop |
| Extraction.SumLineItems | finguardai/mistral.py:117-126 | the item loop returns the running Σ price × quantity or the error of the first item that fails, as `SumItems` specifies |
| Extraction.CheckRequiredFields | finguardai/mistral.py:105-108 | the required-key loop returns what `CheckFields` specifies: success or the first missing key |
| Extraction.ValidateInvoice | finguardai/mistral.py:104-132 | the sequence of checks returns what `Validate` specifies |
| Extraction.ExtractInvoiceData | finguardai/mistral.py:96-136 | the operation returns the validated invoice dict, or `{"error": message}` for the first failure, an upstream exception or a parse error |
| Extraction.CheckItemIff | finguardai/mistral.py:119-125 | a line item passes its checks exactly when it is a dict with the three keys and positive numeric quantity and price, and it then contributes price × quantity |
| Extraction.SumItemsIff | finguardai/mistral.py:118-126 | the item loop succeeds exactly when every item is valid, and its total is then Σ price × quantity (`LineSum`) |
| Extraction.SumItemsFirstError | finguardai/mistral.py:118-124 | the loop reports the error of the first invalid item, whatever follows it |
| Extraction.CheckFieldsFirstMissing | finguardai/mistral.py:105-108 | for a dict, the field loop names the first missing field in list order |
| Extraction.CheckFieldsAllPresent | finguardai/mistral.py:105-108 | for a dict with every listed key, the field loop passes |
| Extraction.ValidateIff | finguardai/mistral.py:104-132 | validation accepts exactly the invoices `WellFormed` describes: required keys, a non-empty list of valid items, a numeric total within 0.01 of Σ price × quantity (both directions) |
| Extraction.MissingFieldReported | finguardai/mistral.py:105-108 | the first missing required key is reported, whatever else is wrong with the invoice |
| Extraction.ListChecksReported | finguardai/mistral.py:111-115 | with all keys present, a line_items that is not a list gets "line_items must be a list" and an empty list gets "No line items found in invoice" |
| Extraction.FirstBadItemReported | finguardai/mistral.py:118-124 | with a non-empty list, the first invalid item's error is reported before the total is compared |
| Extraction.TotalCheck | finguardai/mistral.py:129-130 | with every item valid, the invoice is accepted exactly when its numeric total is within 0.01 of Σ price × quantity, and otherwise fails with the mismatch error |
| Extraction.ExtractRecordShape | finguardai/mistral.py:132-136 | the returned dict is either a well-formed parsed invoice or holds the single key "error" with a string |
| RiskScreen.PricesOf | finguardai/mistral.py:142 | the list of prices has one entry per item, each the item's 'price' |
| RiskScreen.PriceValues | finguardai/mistral.py:142 | a non-empty price list only comes from a list of line items |
| RiskScreen.Sum | finguardai/mistral.py:143 | `sum` succeeds exactly when every element is a number |
| RiskScreen.FlagItemsErrorStays | finguardai/mistral.py:147-155 | once building a flag raises, the later items do not change the outcome |
| RiskScreen.FlagLoop | finguardai/mistral.py:146-155 | the loop over the items returns what `FlagItems` specifies: the flags in item order or the first exception |
| RiskScreen.FindUnusualItems | finguardai/mistral.py:142-163 | the average, the item loop and the total check return what `Screen` specifies |
| RiskScreen.CheckAnswerFields | finguardai/mistral.py:246-249 | the loop over the answer fields returns what `CheckRiskFields` specifies |
| RiskScreen.AssessRisk | finguardai/mistral.py:140-264 | the operation returns what `Assess` specifies |
| RiskScreen.CheckRiskFields | finguardai/mistral.py:246-249 | passing the check means each of the fields is `in` the answer |
| RiskScreen.FieldsPassCheck | finguardai/mistral.py:246-249 | conversely, an answer holding each field passes the check |
| RiskScreen.FlaggedIndicesExact | finguardai/mistral.py:149 | exactly the items priced above five times the average are flagged, each once, in increasing order |
| RiskScreen.FlagItemsMatch | finguardai/mistral.py:146-155 | when nothing raises, the j-th flag is the j-th unusual item's: its name, its price, the average and their ratio |
| RiskScreen.FlagStep | finguardai/mistral.py:147-155 | one more item adds its own flag exactly when it is unusual and adds nothing otherwise |
| RiskScreen.ScreenShape | finguardai/mistral.py:146-163 | a successful screening lists the item flags first, and ends with the total's flag exactly when the numeric total exceeds 100 000 |
| RiskScreen.ValidatedScreening | finguardai/mistral.py:142-163 | an invoice that passed extraction is screened without an exception, and fewer than a fifth of its items can be flagged |
| RiskScreen.ScreenableFlags | finguardai/mistral.py:142-163 | for a screenable invoice, the screening is its item flags around the mean price followed by its total flag |
| RiskScreen.FlaggedBelowSum | finguardai/mistral.py:149 | with non-negative prices, the flagged items' thresholds add up to no more than the sum of all prices, and to less when any item is flagged |
| RiskScreen.FewUnusual | finguardai/mistral.py:143-149 | among positive prices, fewer than a fifth lie above five times their mean |
| RiskScreen.AssessHasFields | finguardai/mistral.py:246-264 | whatever happens, the three fields are `in` the answer, and an answer that is not a dict is the model's own parsed reply |
| RiskScreen.FallbacksHaveFields | finguardai/mistral.py:236-264 | both fallback answers hold the three fields |
| RiskScreen.ParseFailureAnswer | finguardai/mistral.py:230-243 | a reply that is not JSON gives the low-risk answer with score 0.6, one finding and no unusual items |
| RiskScreen.ScreeningFailureAnswer | finguardai/mistral.py:253-264 | missing line items or an empty list give the low-risk answer whose first finding names the exception (KeyError text or "division by zero"), whatever the model would say |
| RiskScreen.FailureFallbackShape | finguardai/mistral.py:256-264 | the exception answer is low risk, score 0.6, no unusual items, and findings naming the exception and the default |
| RiskScreen.FlagsDoNotReachAnswer | finguardai/mistral.py:146-251 | the answer depends on the flags only through the model's reply: two invoices that screen without an exception get the same answer from the same reply |
| RiskScreen.AssessMayReturnList | finguardai/mistral.py:246-251 | a reply that parses to the list of the three field names passes the check and is returned as the assessment |
| Api.Extension | finguardai/api.py:67 | `rsplit('.', 1)[1]`: the text after the last dot, which contains no dot |
| Api.ExtensionAfterLastDot | finguardai/api.py:67 | whatever stands before the last dot, the extension is what follows it |
| Api.AllowedFileIff | finguardai/api.py:66-67 | a name is allowed exactly when some dot is followed by dot-free text that lower-cases to png, jpg, jpeg or pdf (both directions) |
| Api.AllowedByExtension | finguardai/api.py:66-67 | only the extension after the last dot decides, in any letter case |
| Api.UpperCaseAllowed | finguardai/api.py:67 | "scan.PDF" is allowed |
| Api.LastDotAllowed | finguardai/api.py:67 | "archive.tar.pdf" is allowed |
| Api.LeadingDotAllowed | finguardai/api.py:67 | ".jpeg" is allowed |
| Api.NoDotRejected | finguardai/api.py:67 | "pdf" without a dot is refused |
| Api.LaterExtensionRejected | finguardai/api.py:67 | "invoice.pdf.exe" is refused |
| Api.EmptyExtensionRejected | finguardai/api.py:67 | "invoice." is refused |
| Api.Server.constructor | finguardai/api.py:53 | the upload folder holds exactly what it held before: `exist_ok=True` keeps an existing folder's files |
| Api.Server.ProcessInvoice | finguardai/api.py:80-159 | the route answers `Respond` and leaves the upload folder as `StoredAfter` describes: only the request's own path can change |
| Api.ErrorInRecord | finguardai/api.py:114 | the dict holds "error" exactly when extraction failed or the invoice itself has such a key |
| Api.StatusCodes | finguardai/api.py:80-159 | every answer is 200, 400 or 500 with a "success" field that is true exactly for 200 |
| Api.StatusLadder | finguardai/api.py:101-153 | 500 exactly when saving an accepted upload raises; a POST gets 200 exactly when the upload is accepted and saved and extraction gives an invoice without an "error" key |
| Api.SuccessBody | finguardai/api.py:123-136 | a successful answer's data holds exactly invoice_data (a well-formed invoice), risk_assessment (with the three fields) and action_hash (the digest of the invoice) |
| Api.PayloadShape | finguardai/api.py:129-136 | the data object has exactly the three keys, the invoice unchanged and an assessment with the three fields |
| Api.ExtractedWellFormed | finguardai/api.py:112 | what extraction hands on is a well-formed invoice |
| Api.EarlyRejectionsIgnoreBackend | finguardai/api.py:80-99 | requests turned away before the save answer the same whatever the backend does, and store nothing |
| Api.LadderOrder | finguardai/api.py:80-99 | OPTIONS is answered before the file part is looked at, a missing part before an empty name, an empty name before the file type |
| Api.UploadCleanup | finguardai/api.py:107-149 | only the request's path can change, and the upload is left in the folder exactly when the answer is 400 from extraction |
| Api.ExtractionErrorIgnoresRisk | finguardai/api.py:114-119 | when extraction fails, the answer is 400 with its message and does not depend on the risk reply or the digest |
| Api.ErrorKeyRejectsValidInvoice | finguardai/api.py:114-119 | a well-formed invoice whose JSON holds an "error" key gets 400 with that value |
| Js.Or | frontend/src/components/RiskAssessment.jsx:49 | JavaScript's `or` operator gives its first operand when that is truthy, and its second otherwise |
| Js.Field | frontend/src/components/InvoiceProcessor.jsx:62-71 | a property read throws exactly on null and finds a value exactly on an object with the key |
| Js.OptionalField | frontend/src/components/RiskAssessment.jsx:49-51 | `v?.key` finds a value exactly when v is an object with the key |
| Js.ChildText | frontend/src/components/RiskAssessment.jsx:174 | React renders nothing for undefined, null and booleans, a string as itself, and throws on an object child |
| Processor.InvoiceProcessor.constructor | frontend/src/components/InvoiceProcessor.jsx:38-40 | no spinner, no error, no results |
| Processor.InvoiceProcessor.StartUpload | frontend/src/components/InvoiceProcessor.jsx:44-46 | the spinner is on and the error and the results are cleared |
| Processor.InvoiceProcessor.CompleteUpload | frontend/src/components/InvoiceProcessor.jsx:62-78 | the spinner is off and exactly one of results or error is set from `Complete`, the other left as it was |
| Processor.InvoiceProcessor.HandleFileUpload | frontend/src/components/InvoiceProcessor.jsx:42-79 | afterwards the spinner is off, the state is consistent, and results or error (never both) hold what the response classification gives |
| Processor.ResultsIff | frontend/src/components/InvoiceProcessor.jsx:62-66 | results are kept exactly when the status is 200, the body's success is truthy and its data is an object with truthy invoice_data; that data is what is kept |
| Processor.MissingInvoiceDataReported | frontend/src/components/InvoiceProcessor.jsx:64-69 | a 200 answer saying success without invoice data shows "Invalid response: missing invoice data" |
| Processor.RejectionReported | frontend/src/components/InvoiceProcessor.jsx:70-71 | any other object answer shows its error as String() writes it, or "Failed to process invoice" when the error is falsy |
| Processor.NullBodyReported | frontend/src/components/InvoiceProcessor.jsx:62-71 | a null body throws on the first property read, which is success for 200 and error otherwise |
| Processor.TransportFailureReported | frontend/src/components/InvoiceProcessor.jsx:73-75 | a rejected fetch or an unparsable body shows the caught message |
| Processor.EmptyArrayErrorShowsNothing | frontend/src/components/InvoiceProcessor.jsx:170 | an error that is an empty array is truthy but prints as "": the upload fails and no alert shows |
| Processor.Renders | frontend/src/components/InvoiceProcessor.jsx:21-31 | a fresh boundary shows one view per render |
| Processor.BoundaryLatches | frontend/src/components/InvoiceProcessor.jsx:17-31 | the children show until the first render that throws, and from then on the alert shows that first message, whatever the children do |
| Processor.ErrorBoundary.constructor | frontend/src/components/InvoiceProcessor.jsx:14 | no error caught yet |
| Processor.ErrorBoundary.Render | frontend/src/components/InvoiceProcessor.jsx:17-31 | one render moves the boundary's state and shows what `BoundaryStep` gives |
| RiskView.RiskColorIff | frontend/src/components/RiskAssessment.jsx:34-46 | "high" in any letter case is error, "medium" warning, anything else (low, unknown, empty) success, in both directions |
| RiskView.RiskMappingIgnoresCase | frontend/src/components/RiskAssessment.jsx:20-46 | levels equal up to letter case get the same colour and icon |
| RiskView.LabelKeepsMapping | frontend/src/components/RiskAssessment.jsx:187-188 | the upper-cased chip label maps to the same colour and icon as the level, with case mapping on ASCII letters only (see "## Left out") |
| RiskView.EmptyLevelIsLow | frontend/src/components/RiskAssessment.jsx:21 | an empty level is treated as low |
| RiskView.IconMatchesColor | frontend/src/components/RiskAssessment.jsx:20-46 | the icon and the colour always come from the same branch |
| RiskView.RawEntryOf | frontend/src/components/RiskAssessment.jsx:174 | a finding fails exactly when it is null; a string is its own text; only an object can carry details |
| RiskView.RawEntries | frontend/src/components/RiskAssessment.jsx:140 | `findings.map` gives one entry per finding in order, and fails exactly on a null finding |
| RiskView.EntryOf | frontend/src/components/RiskAssessment.jsx:174-206 | an entry renders its text as React renders it, and shows a details line exactly when the finding's details are truthy |
| RiskView.EntryTexts | frontend/src/components/RiskAssessment.jsx:140-206 | the entries render in order and the render fails exactly when one of them fails |
| RiskView.DefaultsWhenMissing | frontend/src/components/RiskAssessment.jsx:49-51 | a missing or non-object assessment, or one without the keys, shows LOW, success, a zero score and no findings |
| RiskView.OneEntryPerFinding | frontend/src/components/RiskAssessment.jsx:140-206 | the render succeeds exactly when the level is a string, the findings an array and every finding renders; it then has one entry per finding, in order |
| RiskView.PlainFindings | frontend/src/components/RiskAssessment.jsx:89-174 | string findings show as plain entries in order under the upper-cased level and its colour and icon |
| RiskView.ChipFollowsLabel | frontend/src/components/RiskAssessment.jsx:89-91 | the chip's colour and icon follow its own label, with case mapping on ASCII letters only (see "## Left out") |
| RiskView.RenderErrors | frontend/src/components/RiskAssessment.jsx:89-174 | a level without toUpperCase throws first, then findings without map, then a null finding |
| RiskView.EntrySelection | frontend/src/components/RiskAssessment.jsx:174-206 | a string shows as itself, an object by its description with truthy details, a number as nothing, a null throws and an object description throws |
| RiskView.ZeroDetailsShowAsZero | frontend/src/components/RiskAssessment.jsx:197 | a details value of 0 skips the details line yet renders a bare "0" |
| InvoiceView.Money | frontend/src/components/InvoiceResults.jsx:35 | formatCurrency's default: the amount when it is truthy, otherwise 0 |
| InvoiceView.Product | frontend/src/components/InvoiceResults.jsx:258 | the product exists exactly when both operands are numbers, and is their product |
| InvoiceView.RawRowOf | frontend/src/components/InvoiceResults.jsx:245-258 | building a row fails exactly on a null item |
| InvoiceView.RawRows | frontend/src/components/InvoiceResults.jsx:245 | `lineItems.map` gives one row per item in order, and fails exactly on a null item |
| InvoiceView.RowText | frontend/src/components/InvoiceResults.jsx:255-258 | a row renders its name and quantity cells as React does and keeps its money values |
| InvoiceView.RowTexts | frontend/src/components/InvoiceResults.jsx:245-260 | rows render in order and the render fails exactly when one fails |
| InvoiceView.LineItemsOf | frontend/src/components/InvoiceResults.jsx:39 | the line items when they are an array, and none otherwise |
| InvoiceView.NoDataIff | frontend/src/components/InvoiceResults.jsx:21-27 | the no-data view shows exactly when the data is missing or falsy |
| InvoiceView.NotAvailableDefaults | frontend/src/components/InvoiceResults.jsx:80 | a header cell shows the field when truthy and 'N/A' when it is missing or falsy (also lines 109 and 138) |
| InvoiceView.OneRowPerItem | frontend/src/components/InvoiceResults.jsx:39-260 | the render succeeds exactly when every row and header cell renders; it then has one row per line item, in order |
| InvoiceView.RowDefaults | frontend/src/components/InvoiceResults.jsx:255-258 | a row without name, quantity or price shows 'Unknown Item', 1, 0 and an amount of 0 |
| InvoiceView.RowAmount | frontend/src/components/InvoiceResults.jsx:257-258 | for any object item, the price cell shows the price when it is truthy and 0 otherwise; with numeric or missing price and quantity, the amount is (the price, or 0 when falsy) × (the quantity, or 1 when falsy), ints and floats alike |
| InvoiceView.TotalShownAsGiven | frontend/src/components/InvoiceResults.jsx:168 | both total cells show total_amount as given (also line 288) |
| InvoiceView.TotalIgnoresLineItems | frontend/src/components/InvoiceResults.jsx:288 | the total shown does not depend on the line items |
| InvoiceView.TotalNotReconciled | frontend/src/components/InvoiceResults.jsx:258-288 | one item of 2 × 10 beside a stated total of 5 shows an amount of 20 and a total of 5 |
| Pipeline.SuccessShowsResults | frontend/src/components/InvoiceProcessor.jsx:62-66 | a successful POST puts the route's whole data object into the page's results, and the invoice it holds is not the no-data view |
| Pipeline.RejectionShowsError | frontend/src/components/InvoiceProcessor.jsx:70-75 | every other answer ends the upload with the route's error as String() writes it, or the default message when it is falsy |
| Pipeline.LadderMessagesShown | frontend/src/components/InvoiceProcessor.jsx:71 | the route's fixed ladder messages reach the alert unchanged |
| Pipeline.PositiveIsTruthy | frontend/src/components/InvoiceResults.jsx:258 | a number the validation accepts as positive is truthy and reads as the same number under `*` |
| Pipeline.TotalReadsAsNumber | frontend/src/components/InvoiceResults.jsx:168 | a numeric total reads as the number the validation compared, even a falsy zero |
| Pipeline.ValidItemAmount | frontend/src/components/InvoiceResults.jsx:258 | the page's amount for a validated item is the price × quantity the validation added up |
| Pipeline.RowAmounts | frontend/src/components/InvoiceResults.jsx:245-258 | the rows of valid items carry their price × quantity |
| Pipeline.AmountsAddUp | frontend/src/components/InvoiceResults.jsx:245-258 | those amounts add up to Σ price × quantity |
| Pipeline.ValidatedInvoiceTable | frontend/src/components/InvoiceResults.jsx:245-288 | for an invoice that passed extraction, the table has one row per line item and its amounts add up to within 0.01 of the total it shows |
| Pipeline.TableAddsUp | frontend/src/components/InvoiceResults.jsx:258-288 | rows carrying the validated amounts add up to within 0.01 of the shown total |
| Pipeline.TableRows | frontend/src/components/InvoiceResults.jsx:245-260 | a validated invoice renders one row per line item, each the row of its item |
| Pipeline.FailureFallbackRenders | frontend/src/components/RiskAssessment.jsx:49-174 | the exception answer shows LOW, success, 0.6 and its two findings as plain entries |
| Pipeline.ParseFallbackRenders | frontend/src/components/RiskAssessment.jsx:49-174 | the unparsable-reply answer shows LOW, success, 0.6 and its one finding |
| Pipeline.ListAnswerShowsDefaults | frontend/src/components/RiskAssessment.jsx:49-51 | a reply parsing to the list of the three field names passes the backend's check, and the panel then shows LOW, a zero score and no findings |

## Behaviours the proofs bring out

None of these is filed as a defect, because the code's intent is not clear enough for that:

- `assess_risk` checks its three fields with Python's `in`. A list or a string that contains the
  field names passes, so the assessment need not be a dict (`RiskScreen.AssessMayReturnList`). The
  panel then shows its defaults (`Pipeline.ListAnswerShowsDefaults`).
- The route's `"error" in invoice_data` cannot tell an extraction failure from an invoice whose
  JSON has its own "error" key. That invoice gets 400 (`Api.ErrorKeyRejectsValidInvoice`).
- After an extraction error, the route answers 400 without removing the saved upload
  (`Api.UploadCleanup`).
- The risk clean-up only cuts a fence that starts with "```json". A fence without the tag keeps its
  opening backticks (`Fences.RiskKeepsPlainFence`). The parse then fails, and the fallback answer is
  returned.
- The invoice table does not reconcile the line amounts with the stated total
  (`InvoiceView.TotalNotReconciled`). Only the backend validation makes them agree
  (`Pipeline.ValidatedInvoiceTable`).
- An `error` that is an empty array fails the upload but shows no alert
  (`Processor.EmptyArrayErrorShowsNothing`). A `details` of 0 shows a bare "0"
  (`RiskView.ZeroDetailsShowAsZero`).

## Left out

- The Mistral client, the prompts and the PDF reading: a reply, or the text of the exception raised, is a parameter (`Extraction.Upstream`).
- json.loads and response.json(): each is a parameter from text to a parsed value or an error message.
- generate_action_hash (SHA-256 over json.dumps): a parameter from the invoice to its digest.
- Flask, CORS, secure_filename and os.path.join: the path of an upload is a parameter (`Backend.pathFor`).
- File contents, MAX_CONTENT_LENGTH and the health route are not modelled.
- Logging and console output are not modelled.
- Api.Server.ProcessInvoice: only file.save raises inside the try; the digest, jsonify and os.remove are taken not to raise, so those paths to 500 are not modelled.
- Extraction.TotalCheck: numbers are exact reals, not IEEE 754 doubles, so Σ price × quantity and the 0.01 comparison carry no rounding. NaN and Infinity literals, which Python's json.loads accepts, are not represented; with a NaN price or total the comparisons of mistral.py:121-130 are false, so the total check passes whatever the total.
- Js.NumeralText: numbers print positionally; V8's exponent form for magnitudes of at least 1e21 or below 1e-6 is not followed, so such a quantity cell or error text is approximate.
- Python.FloatText: floats print positionally with up to 17 fractional digits; Python's shortest round-trip form and its exponent notation are not followed.
- Python.PyStr: lists and dicts print as "[...]" and "{...}", not element by element, so error messages that quote one (an item name that is a list, say) are approximate.
- Exception texts follow CPython 3.11 and V8 wording.
- Text.Lower and Text.Upper: only ASCII letters change case.
- RiskView.LabelKeepsMapping and RiskView.ChipFollowsLabel: they hold for the ASCII case mapping only. JavaScript's full Unicode mapping breaks them: the level "hıgh" (dotless ı, U+0131) upper-cases to "HIGH", while "hıgh".toLowerCase() is not 'high', so the chip reads HIGH in the success colour with the check icon (RiskAssessment.jsx:20-46, 89, 187).
- RiskScreen.FlagItem: the reason text's `:.1f` formatting is kept as the ratio itself. The flags feed only the prompt, which is not modelled.
- Js.ToNumber: strings, arrays and objects are not converted, so a row whose price or quantity is one of them has no modelled amount.
- Js.ValueText: React's message for an object child is not given its list of keys.
- Intl.NumberFormat and toFixed are not modelled: money cells and the confidence score hold the value handed to them.
- The race between overlapping uploads is not modelled: `Processor.InvoiceProcessor.HandleFileUpload` takes the awaited response as a parameter.
- The JSON body is taken to reach the page as the route built it: jsonify and the HTTP transport are not modelled.
- The MUI markup around the modelled values is not modelled.
- finguardai/app.py, FileUpload.jsx and App.jsx are not part of this model.
