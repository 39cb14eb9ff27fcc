/** The RiskAssessment component (frontend/src/components/RiskAssessment.jsx): the three-way mapping
    of a risk level to a colour and an icon, the defaults for a missing assessment, and one list entry
    per finding. */
module RiskView {
  import opened Wrappers
  import opened Json
  import opened Text
  import opened Js

  datatype Color = ErrorColor | WarningColor | SuccessColor
  datatype Icon = ErrorIcon | WarningIcon | CheckCircleIcon

  /** `(level || 'low').toLowerCase()` for a string level. */
  function Normalised(level: string): string {
    Lower(if level == "" then "low" else level)
  }

  /** getRiskIcon (lines 20-32). */
  function GetRiskIcon(level: string): Icon {
    var riskLevel := Normalised(level);
    if riskLevel == "high" then ErrorIcon
    else if riskLevel == "medium" then WarningIcon
    else CheckCircleIcon
  }

  /** getRiskColor (lines 34-46). */
  function GetRiskColor(level: string): Color {
    var riskLevel := Normalised(level);
    if riskLevel == "high" then ErrorColor
    else if riskLevel == "medium" then WarningColor
    else SuccessColor
  }

  /** The icon each colour goes with. */
  function IconFor(c: Color): Icon {
    match c
    case ErrorColor => ErrorIcon
    case WarningColor => WarningIcon
    case SuccessColor => CheckCircleIcon
  }

  lemma LowerEmpty(level: string)
    ensures Lower(level) == "" <==> level == ""
  {
  }

  /** high in any letter case is an error, medium a warning, and everything else (low, an unknown
      level, the empty string) a success. */
  lemma RiskColorIff(level: string)
    ensures GetRiskColor(level) == ErrorColor <==> Lower(level) == "high"
    ensures GetRiskColor(level) == WarningColor <==> Lower(level) == "medium"
    ensures GetRiskColor(level) == SuccessColor <==> Lower(level) != "high" && Lower(level) != "medium"
  {
    if level == "" {
      assert Lower("low") == "low";
    }
  }

  /** The mapping ignores letter case. */
  lemma RiskMappingIgnoresCase(a: string, b: string)
    requires Lower(a) == Lower(b)
    ensures GetRiskColor(a) == GetRiskColor(b) && GetRiskIcon(a) == GetRiskIcon(b)
  {
    RiskColorIff(a);
    RiskColorIff(b);
    IconMatchesColor(a);
    IconMatchesColor(b);
  }

  /** Upper-casing the level, as the chip's label does, does not change its colour or icon. */
  lemma LabelKeepsMapping(level: string)
    ensures GetRiskColor(Upper(level)) == GetRiskColor(level)
    ensures GetRiskIcon(Upper(level)) == GetRiskIcon(level)
  {
    LowerOfUpper(level);
    RiskMappingIgnoresCase(Upper(level), level);
  }

  /** An empty level is treated as 'low'. */
  lemma EmptyLevelIsLow()
    ensures GetRiskColor("") == GetRiskColor("low") == SuccessColor
    ensures GetRiskIcon("") == GetRiskIcon("low") == CheckCircleIcon
  {
    assert Lower("low") == "low";
  }

  /** The icon and the colour always come from the same branch. */
  lemma IconMatchesColor(level: string)
    ensures GetRiskIcon(level) == IconFor(GetRiskColor(level))
  {
  }

  // ---- The rendered assessment ----

  /** A finding's list entry: its text, the details line when the finding is an object with truthy
      `details`, and the text of a falsy `details` value that React renders bare (a zero shows as "0"). */
  datatype Entry = Entry(text: string, details: Option<string>, bare: string)

  /** The secondary part of an entry before React renders it: nothing (the expression was `false` or
      undefined), a falsy `details` value rendered as it is, or truthy `details` inside a Typography. */
  datatype Secondary = NoSecondary | Bare(falsy: Value) | Details(value: Value)

  /** A finding's entry as `findings.map` builds it, before React renders its children. */
  datatype RawEntry = RawEntry(text: Option<Value>, secondary: Secondary)

  /** The component's output: the chip label, its colour and icon (the same icon heads every entry),
      the confidence score (formatted by toFixed, which is not modelled) and the entries. */
  datatype AssessmentView = AssessmentView(chip: string, color: Color, icon: Icon, confidence: Value, entries: seq<Entry>)

  const NullFinding: string := "Cannot read properties of null (reading 'description')"

  /** Lines 174 and 197: a string is its own text; anything else gives its `description`, and reading
      that from null throws. `typeof finding === 'object'` holds for objects and arrays, and an array
      has no `details`. */
  function RawEntryOf(finding: Value): (r: Result<RawEntry, string>)
    ensures r.Err? <==> finding.Null?
    ensures r.Err? ==> r.error == NullFinding
    ensures finding.Str? ==> r == Ok(RawEntry(Some(finding), NoSecondary))
    ensures r.Ok? && r.value.secondary.Details? ==> finding.Obj? && "details" in finding.fields
  {
    if finding.Str? then Ok(RawEntry(Some(finding), NoSecondary))
    else match Field(finding, "description")
      case Err(m) => Err(m)
      case Ok(text) =>
        var details := if finding.Obj? || finding.Arr? then Field(finding, "details").value else None;
        var secondary :=
          if details.None? then NoSecondary
          else if Truthy(details.value) then Details(details.value)
          else Bare(details.value);
        Ok(RawEntry(text, secondary))
  }

  /** `findings.map(...)`: one entry per finding, in order, or the first exception. */
  function RawEntries(findings: seq<Value>): (r: Result<seq<RawEntry>, string>)
    ensures r.Ok? <==> forall k :: 0 <= k < |findings| ==> !findings[k].Null?
    ensures r.Err? ==> r.error == NullFinding
    ensures r.Ok? ==> |r.value| == |findings|
    ensures r.Ok? ==> forall k :: 0 <= k < |findings| ==> RawEntryOf(findings[k]) == Ok(r.value[k])
  {
    if findings == [] then Ok([])
    else match RawEntryOf(findings[0])
      case Err(m) => Err(m)
      case Ok(e) =>
        match RawEntries(findings[1..])
        case Err(m) =>
          assert findings[1..][0] == findings[1];
          Err(m)
        case Ok(es) =>
          assert forall k :: 1 <= k < |findings| ==> findings[k] == findings[1..][k - 1];
          Ok([e] + es)
  }

  /** React renders one entry's text and secondary part. */
  function EntryOf(raw: RawEntry): (r: Result<Entry, string>)
    ensures r.Ok? ==> ChildText(raw.text) == Ok(r.value.text)
    ensures r.Ok? ==> (r.value.details.Some? <==> raw.secondary.Details?)
    ensures r.Ok? && raw.secondary.Details? ==> ValueText(raw.secondary.value) == Ok(r.value.details.value)
  {
    match ChildText(raw.text)
    case Err(m) => Err(m)
    case Ok(text) =>
      match raw.secondary
      case NoSecondary => Ok(Entry(text, None, ""))
      case Bare(v) =>
        (match ValueText(v)
         case Err(m) => Err(m)
         case Ok(t) => Ok(Entry(text, None, t)))
      case Details(v) =>
        (match ValueText(v)
         case Err(m) => Err(m)
         case Ok(t) => Ok(Entry(text, Some(t), "")))
  }

  /** The entries rendered in order; the first object child throws. */
  function EntryTexts(raw: seq<RawEntry>): (r: Result<seq<Entry>, string>)
    ensures r.Ok? <==> forall k :: 0 <= k < |raw| ==> EntryOf(raw[k]).Ok?
    ensures r.Ok? ==> |r.value| == |raw|
    ensures r.Ok? ==> forall k :: 0 <= k < |raw| ==> EntryOf(raw[k]) == Ok(r.value[k])
  {
    if raw == [] then Ok([])
    else match EntryOf(raw[0])
      case Err(m) => Err(m)
      case Ok(e) =>
        match EntryTexts(raw[1..])
        case Err(m) =>
          assert forall k :: 1 <= k < |raw| ==> raw[k] == raw[1..][k - 1];
          Err(m)
        case Ok(es) =>
          assert forall k :: 1 <= k < |raw| ==> raw[k] == raw[1..][k - 1];
          Ok([e] + es)
  }

  /** The entry a single finding ends up as. */
  function EntryFor(finding: Value): Result<Entry, string> {
    match RawEntryOf(finding)
    case Err(m) => Err(m)
    case Ok(raw) => EntryOf(raw)
  }

  const NotUpperCasable: string := "riskLevel.toUpperCase is not a function"
  const NotMappable: string := "findings.map is not a function"

  /** `assessment?.risk_level || 'low'` and the other two defaults (lines 49-51). */
  function RiskLevelOf(assessment: Option<Value>): Value {
    Or(OptionalField(assessment, "risk_level"), Str("low"))
  }

  function ConfidenceOf(assessment: Option<Value>): Value {
    Or(OptionalField(assessment, "confidence_score"), Int(0))
  }

  function FindingsOf(assessment: Option<Value>): Value {
    Or(OptionalField(assessment, "findings"), Arr([]))
  }

  /** The RiskAssessment component (lines 48-218): the exceptions its render throws come first (a
      level without toUpperCase, findings without map, a null finding), then an object child. */
  function RenderAssessment(assessment: Option<Value>): Result<AssessmentView, string> {
    var level := RiskLevelOf(assessment);
    var findings := FindingsOf(assessment);
    if !level.Str? then Err(NotUpperCasable)
    else if !findings.Arr? then Err(NotMappable)
    else match RawEntries(findings.items)
      case Err(m) => Err(m)
      case Ok(raw) =>
        match EntryTexts(raw)
        case Err(m) => Err(m)
        case Ok(entries) =>
          Ok(AssessmentView(Upper(level.s), GetRiskColor(level.s), GetRiskIcon(level.s), ConfidenceOf(assessment), entries))
  }

  /** A missing assessment, one that is not an object (null, a list, a string), or one without the
      three keys shows LOW, success, a zero score and no findings. */
  lemma DefaultsWhenMissing(assessment: Option<Value>)
    requires assessment.None? || !assessment.value.Obj?
             || ("risk_level" !in assessment.value.fields && "confidence_score" !in assessment.value.fields
                 && "findings" !in assessment.value.fields)
    ensures RenderAssessment(assessment) == Ok(AssessmentView("LOW", SuccessColor, CheckCircleIcon, Int(0), []))
  {
    assert Upper("low") == "LOW";
    assert Lower("low") == "low";
  }

  /** The render succeeds exactly when the level is a string, the findings are an array with no
      null, and no finding renders an object child; it then has one entry per finding, in order. */
  lemma {:induction false} OneEntryPerFinding(assessment: Option<Value>)
    ensures RenderAssessment(assessment).Ok? <==>
            && RiskLevelOf(assessment).Str? && FindingsOf(assessment).Arr?
            && forall k :: 0 <= k < |FindingsOf(assessment).items| ==> EntryFor(FindingsOf(assessment).items[k]).Ok?
    ensures RenderAssessment(assessment).Ok? ==>
            && |RenderAssessment(assessment).value.entries| == |FindingsOf(assessment).items|
            && forall k :: 0 <= k < |FindingsOf(assessment).items| ==>
                 EntryFor(FindingsOf(assessment).items[k]) == Ok(RenderAssessment(assessment).value.entries[k])
  {
    var level := RiskLevelOf(assessment);
    var findings := FindingsOf(assessment);
    if level.Str? && findings.Arr? {
      var items := findings.items;
      var raws := RawEntries(items);
      if raws.Ok? {
        var texts := EntryTexts(raws.value);
        forall k | 0 <= k < |items|
          ensures EntryFor(items[k]) == EntryOf(raws.value[k])
        {
        }
      } else {
        var k :| 0 <= k < |items| && items[k].Null?;
        assert EntryFor(items[k]).Err?;
      }
    }
  }

  /** Findings that are all strings show as plain entries, one per finding, in order. */
  lemma PlainFindings(assessment: Option<Value>)
    requires RiskLevelOf(assessment).Str? && FindingsOf(assessment).Arr?
    requires forall k :: 0 <= k < |FindingsOf(assessment).items| ==> FindingsOf(assessment).items[k].Str?
    ensures var level := RiskLevelOf(assessment).s;
            && RenderAssessment(assessment).Ok?
            && RenderAssessment(assessment).value.chip == Upper(level)
            && RenderAssessment(assessment).value.color == GetRiskColor(level)
            && RenderAssessment(assessment).value.icon == GetRiskIcon(level)
            && RenderAssessment(assessment).value.confidence == ConfidenceOf(assessment)
    ensures var items := FindingsOf(assessment).items;
            && |RenderAssessment(assessment).value.entries| == |items|
            && forall k :: 0 <= k < |items| ==> RenderAssessment(assessment).value.entries[k] == Entry(items[k].s, None, "")
  {
    var items := FindingsOf(assessment).items;
    forall k | 0 <= k < |items|
      ensures EntryFor(items[k]) == Ok(Entry(items[k].s, None, ""))
    {
      EntrySelection(items[k]);
    }
    OneEntryPerFinding(assessment);
  }

  /** The chip's colour and icon follow its own label, letter case aside. */
  lemma ChipFollowsLabel(assessment: Option<Value>)
    requires RenderAssessment(assessment).Ok?
    ensures RenderAssessment(assessment).value.color == GetRiskColor(RenderAssessment(assessment).value.chip)
    ensures RenderAssessment(assessment).value.icon == GetRiskIcon(RenderAssessment(assessment).value.chip)
    ensures RenderAssessment(assessment).value.chip == Upper(RiskLevelOf(assessment).s)
  {
    LabelKeepsMapping(RiskLevelOf(assessment).s);
  }

  /** The errors, in the order the render meets them. */
  lemma RenderErrors(assessment: Option<Value>)
    ensures !RiskLevelOf(assessment).Str? ==> RenderAssessment(assessment) == Err(NotUpperCasable)
    ensures RiskLevelOf(assessment).Str? && !FindingsOf(assessment).Arr? ==> RenderAssessment(assessment) == Err(NotMappable)
    ensures RiskLevelOf(assessment).Str? && FindingsOf(assessment).Arr? && Null in FindingsOf(assessment).items ==>
              RenderAssessment(assessment) == Err(NullFinding)
  {
  }

  /** How one finding is shown: a string as itself; an object by its description, with its details
      when they are truthy; a zero `details` as a bare "0"; a null finding throws. */
  lemma EntrySelection(finding: Value)
    ensures finding.Str? ==> EntryFor(finding) == Ok(Entry(finding.s, None, ""))
    ensures finding.Null? ==> EntryFor(finding) == Err(NullFinding)
    ensures finding.Int? || finding.Float? || finding.Bool? ==> EntryFor(finding) == Ok(Entry("", None, ""))
    ensures finding.Obj? && "description" in finding.fields && finding.fields["description"].Str?
            && "details" in finding.fields && finding.fields["details"].Str? && finding.fields["details"].s != "" ==>
              EntryFor(finding) == Ok(Entry(finding.fields["description"].s, Some(finding.fields["details"].s), ""))
    ensures finding.Obj? && "description" in finding.fields && finding.fields["description"].Str?
            && "details" !in finding.fields ==>
              EntryFor(finding) == Ok(Entry(finding.fields["description"].s, None, ""))
    ensures finding.Obj? && "description" in finding.fields && finding.fields["description"].Obj? ==>
              EntryFor(finding) == Err(ObjectChild)
  {
  }

  /** A details value of zero is falsy, so the Typography is skipped, yet React still renders it. */
  lemma ZeroDetailsShowAsZero(description: string)
    ensures EntryFor(Obj(map["description" := Str(description), "details" := Int(0)])) == Ok(Entry(description, None, "0"))
  {
    var f := Obj(map["description" := Str(description), "details" := Int(0)]);
    assert RawEntryOf(f) == Ok(RawEntry(Some(Str(description)), Bare(Int(0))));
    assert IntText(0) == "0";
  }
}
