/**
 * The object `generateVendorReportFlow` in `src/ai/flows/generate-vendor-report.ts`
 * returns: the model's output spread first, the six fields that mirror the
 * input forced to the input value (or "N/A"), and the ten summary fields and
 * `overallResult` taken from the model, then the input, then "N/A".
 */
module ReportFlow {
  import opened Wrappers
  import opened Records

  /** The `determinedRiskLevel` enum of the output schema. */
  datatype RiskLevel = Green | Yellow | Red

  /**
   * What the prompt returned: its top-level string fields, its
   * `summaryOfEvaluations` object (possibly missing), the risk level and the
   * analysis text. The call itself is not modelled; `None` is a null output.
   */
  datatype AiOutput = AiOutput(
    fields: Record,
    summaryOfEvaluations: Option<Record>,
    determinedRiskLevel: RiskLevel,
    detailedAnalysis: string)

  /** The flow's result. */
  datatype VendorReport = VendorReport(
    fields: Record,
    summaryOfEvaluations: map<string, string>,
    determinedRiskLevel: Option<RiskLevel>,
    detailedAnalysis: Option<string>)

  const NotAvailable := "N/A"

  /** The output fields forced from the input, whatever the model said. */
  const MirrorFields: seq<string> := [
    "nameOfCompanyAssessed",
    "tenderNumber",
    "tenderTitle",
    "dateOfFinancialEvaluation",
    "evaluationValidityDate",
    "evaluatorNameDepartment"
  ]

  const OverallResultKey := "overallResult"

  /** The fields of `summaryOfEvaluations`. */
  const SummaryFields: seq<string> := [
    "quantitativeScore",
    "quantitativeBand",
    "quantitativeRiskCategory",
    "altmanZScore",
    "altmanZBand",
    "altmanZRiskCategory",
    "qualitativeScore",
    "qualitativeBand",
    "qualitativeRiskCategory",
    "overallFinancialEvaluationResult"
  ]

  /** The input field a mirror field copies: `vendorName` for the company name, else the same name. */
  function MirrorSource(k: string): string
  {
    if k == "nameOfCompanyAssessed" then VendorNameKey else k
  }

  /** `ai?.[k] || input[k] || "N/A"`. */
  function Fallback(ai: Option<Record>, input: Record, k: string): (s: string)
    ensures s != ""
  {
    if ai.Some? && Truthy(ai.value, k) then ai.value[k].s else OrElse(input, k, NotAvailable)
  }

  /** `output?.summaryOfEvaluations`. */
  function AiSummary(output: Option<AiOutput>): Option<Record>
  {
    if output.Some? then output.value.summaryOfEvaluations else None
  }

  /** `output?` seen as a record of its top-level fields. */
  function AiFields(output: Option<AiOutput>): Option<Record>
  {
    if output.Some? then Some(output.value.fields) else None
  }

  /** The object literal the flow returns. */
  function NormaliseReport(input: Record, output: Option<AiOutput>): (report: VendorReport)
    ensures forall k :: k in MirrorFields ==> k in report.fields
    ensures OverallResultKey in report.fields
    ensures report.summaryOfEvaluations.Keys == set k | k in SummaryFields
  {
    var spread := if output.Some? then output.value.fields else map[];
    var mirrored := map k | k in MirrorFields :: Str(OrElse(input, MirrorSource(k), NotAvailable));
    var summary := map k | k in SummaryFields :: Fallback(AiSummary(output), input, k);
    var overall := Fallback(AiFields(output), input, OverallResultKey);
    VendorReport(
      spread + mirrored + map[OverallResultKey := Str(overall)],
      summary,
      if output.Some? then Some(output.value.determinedRiskLevel) else None,
      if output.Some? then Some(output.value.detailedAnalysis) else None)
  }

  /** `nameOfCompanyAssessed` is the input's vendor name when non-empty, else "N/A", whatever the model returned. */
  lemma CompanyNameFromInput(input: Record, output: Option<AiOutput>)
    ensures NormaliseReport(input, output).fields["nameOfCompanyAssessed"] ==
      if Truthy(input, VendorNameKey) then input[VendorNameKey] else Str(NotAvailable)
  {
    assert "nameOfCompanyAssessed" in MirrorFields;
    assert "nameOfCompanyAssessed" != OverallResultKey;
  }

  /** Every mirror field comes from the input alone: two model outputs give the same value. */
  lemma MirrorFieldsIgnoreAi(input: Record, output: Option<AiOutput>, other: Option<AiOutput>, k: string)
    requires k in MirrorFields
    ensures NormaliseReport(input, output).fields[k] == NormaliseReport(input, other).fields[k]
    ensures NormaliseReport(input, output).fields[k] ==
      if Truthy(input, MirrorSource(k)) then input[MirrorSource(k)] else Str(NotAvailable)
  {
    assert k != OverallResultKey;
  }

  /** A summary field is the model's value if non-empty, else the input's if non-empty, else "N/A". */
  lemma SummaryPrecedence(input: Record, output: Option<AiOutput>, k: string)
    requires k in SummaryFields
    ensures var ai := AiSummary(output);
      var v := NormaliseReport(input, output).summaryOfEvaluations[k];
      && (ai.Some? && Truthy(ai.value, k) ==> v == ai.value[k].s)
      && (!(ai.Some? && Truthy(ai.value, k)) && Truthy(input, k) ==> v == input[k].s)
      && (!(ai.Some? && Truthy(ai.value, k)) && !Truthy(input, k) ==> v == NotAvailable)
  {
  }

  /** `overallResult` follows the same precedence: model, then input, then "N/A". */
  lemma OverallResultPrecedence(input: Record, output: Option<AiOutput>)
    ensures var v := NormaliseReport(input, output).fields[OverallResultKey];
      && (output.Some? && Truthy(output.value.fields, OverallResultKey) ==> v == output.value.fields[OverallResultKey])
      && (!(output.Some? && Truthy(output.value.fields, OverallResultKey)) && Truthy(input, OverallResultKey) ==> v == input[OverallResultKey])
      && (!(output.Some? && Truthy(output.value.fields, OverallResultKey)) && !Truthy(input, OverallResultKey) ==> v == Str(NotAvailable))
  {
  }

  /** None of the seventeen normalised fields is empty or null. */
  lemma NormalisedFieldsNonEmpty(input: Record, output: Option<AiOutput>)
    ensures var r := NormaliseReport(input, output);
      && (forall k :: k in MirrorFields ==> r.fields[k].Str? && r.fields[k].s != "")
      && r.fields[OverallResultKey].Str? && r.fields[OverallResultKey].s != ""
      && (forall k :: k in SummaryFields ==> r.summaryOfEvaluations[k] != "")
  {
    var r := NormaliseReport(input, output);
    forall k | k in MirrorFields ensures r.fields[k].Str? && r.fields[k].s != "" {
      MirrorFieldsIgnoreAi(input, output, output, k);
    }
  }

  /** The risk level and the analysis pass through from the model's output untouched. */
  lemma RiskLevelPassesThrough(input: Record, output: Option<AiOutput>)
    ensures output.Some? ==>
      NormaliseReport(input, output).determinedRiskLevel == Some(output.value.determinedRiskLevel)
      && NormaliseReport(input, output).detailedAnalysis == Some(output.value.detailedAnalysis)
    ensures output.None? ==>
      NormaliseReport(input, output).determinedRiskLevel == None && NormaliseReport(input, output).detailedAnalysis == None
  {
  }

  /** Without a model output the report is built from the input alone, "N/A" filling every gap. */
  lemma ReportWithoutAi(input: Record)
    ensures var r := NormaliseReport(input, None);
      && r.fields.Keys == (set k | k in MirrorFields) + {OverallResultKey}
      && (forall k :: k in SummaryFields ==> r.summaryOfEvaluations[k] == OrElse(input, k, NotAvailable))
      && r.fields[OverallResultKey] == Str(OrElse(input, OverallResultKey, NotAvailable))
  {
  }
}
