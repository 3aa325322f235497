/** The browser-side logic of the estimator page: coercing the form fields
    into the request body, the risk gauge, the colour classes for the risk
    level and the approval likelihood, and the list of key factors. The DOM
    is modelled by the few element fields these functions write. */
module Frontend {
  import opened Util

  // ---------------------------------------------------------------------
  // Form coercion

  /** A number read from a form field: `parseInt`/`parseFloat` give NaN for
      a field that does not start with a number. */
  datatype JsNumber = NaN | Number(v: real)

  /** JavaScript truthiness of a number: NaN and 0 are falsy. */
  predicate Truthy(x: JsNumber) {
    x.Number? && x.v != 0.0
  }

  /** `x || d` on a parsed number. */
  function OrDefault(x: JsNumber, d: real): (r: real)
    ensures Truthy(x) ==> r == x.v
    ensures !Truthy(x) ==> r == d
    ensures d != 0.0 ==> r != 0.0
  {
    if Truthy(x) then x.v else d
  }

  /** The raw form: the parsed numeric fields, the selected texts and the
      checkbox states. */
  datatype FormFields = FormFields(
    age: JsNumber, nationality: string, visaType: string, occupation: string, education: string,
    duration: JsNumber, previousVisits: JsNumber, financialProof: JsNumber,
    hasSponsor: bool, documentsComplete: bool, expressProcessing: bool, applicationMonth: JsNumber)

  /** The request body. The age is sent as parsed, so an unparsable age
      is NaN, which `JSON.stringify` sends as null. */
  datatype FormData = FormData(
    applicantAge: JsNumber, nationality: string, visaType: string, occupation: string, educationLevel: string,
    durationRequestedDays: real, numPreviousVisits: real, financialProofUsd: real,
    hasSponsor: bool, documentsComplete: bool, expressProcessing: bool, applicationMonth: real)

  const DefaultDuration: real := 30.0
  const DefaultVisits: real := 0.0
  const DefaultFinancialProof: real := 15000.0
  const DefaultMonth: real := 1.0

  /** The form-data object built on submit. */
  function CollectFormData(f: FormFields): (d: FormData)
    ensures d.applicantAge == f.age
    ensures d.durationRequestedDays == (if Truthy(f.duration) then f.duration.v else DefaultDuration)
    ensures d.numPreviousVisits == (if Truthy(f.previousVisits) then f.previousVisits.v else DefaultVisits)
    ensures d.financialProofUsd == (if Truthy(f.financialProof) then f.financialProof.v else DefaultFinancialProof)
    ensures d.applicationMonth == (if Truthy(f.applicationMonth) then f.applicationMonth.v else DefaultMonth)
    ensures d.durationRequestedDays != 0.0 && d.financialProofUsd != 0.0 && d.applicationMonth != 0.0
    ensures (d.nationality, d.visaType, d.occupation, d.educationLevel) == (f.nationality, f.visaType, f.occupation, f.education)
    ensures (d.hasSponsor, d.documentsComplete, d.expressProcessing) == (f.hasSponsor, f.documentsComplete, f.expressProcessing)
  {
    FormData(
      f.age, f.nationality, f.visaType, f.occupation, f.education,
      OrDefault(f.duration, DefaultDuration), OrDefault(f.previousVisits, DefaultVisits),
      OrDefault(f.financialProof, DefaultFinancialProof),
      f.hasSponsor, f.documentsComplete, f.expressProcessing, OrDefault(f.applicationMonth, DefaultMonth))
  }

  /** An entered financial proof of 0 is sent as 15000, and an entered 0
      visits is sent as 0. */
  lemma ZeroFieldsFallBack(f: FormFields)
    requires f.financialProof == Number(0.0) && f.previousVisits == Number(0.0)
    ensures CollectFormData(f).financialProofUsd == 15000.0
    ensures CollectFormData(f).numPreviousVisits == 0.0
  {
  }

  // ---------------------------------------------------------------------
  // Risk gauge

  /** `Math.min((riskScore / 5) * 100, 100)`. */
  function GaugePercentage(riskScore: real): (p: real)
    ensures p <= 100.0
    ensures 0.0 <= riskScore ==> 0.0 <= p
    ensures riskScore >= 5.0 ==> p == 100.0
    ensures riskScore <= 5.0 ==> p == riskScore * 20.0
  {
    var scaled := (riskScore / 5.0) * 100.0;
    if scaled < 100.0 then scaled else 100.0
  }

  /** The colour class of the gauge. */
  function GaugeClass(riskScore: real): (c: string)
    ensures c == "low" <==> riskScore <= 1.0
    ensures c == "medium" <==> 1.0 < riskScore <= 3.0
    ensures c == "high" <==> 3.0 < riskScore
  {
    if riskScore <= 1.0 then "low" else if riskScore <= 3.0 then "medium" else "high"
  }

  const GaugeClasses: set<string> := {"low", "medium", "high"}

  /** The gauge fill element: its width in percent and its class list. */
  class RiskGauge {
    var widthPercent: real
    var classes: set<string>

    constructor (classes: set<string>)
      ensures this.classes == classes && widthPercent == 0.0
    {
      this.classes := classes;
      widthPercent := 0.0;
    }

    /** `updateRiskGauge`: sets the width and replaces the colour class,
        keeping every other class. */
    method UpdateRiskGauge(riskScore: real)
      modifies this
      ensures widthPercent == GaugePercentage(riskScore)
      ensures classes == (old(classes) - GaugeClasses) + {GaugeClass(riskScore)}
      ensures |classes * GaugeClasses| == 1
    {
      widthPercent := GaugePercentage(riskScore);
      classes := classes - {"low", "medium", "high"};
      if riskScore <= 1.0 {
        classes := classes + {"low"};
      } else if riskScore <= 3.0 {
        classes := classes + {"medium"};
      } else {
        classes := classes + {"high"};
      }
      assert classes * GaugeClasses == {GaugeClass(riskScore)};
    }
  }

  // ---------------------------------------------------------------------
  // Result classes

  /** `getRiskClass`. */
  function RiskClass(riskLevel: string): (c: string)
    ensures c in {"success", "warning", "danger"}
    ensures c == "success" <==> riskLevel == "Low"
    ensures c == "warning" <==> riskLevel == "Medium"
  {
    if riskLevel == "Low" then "success" else if riskLevel == "Medium" then "warning" else "danger"
  }

  /** `getApprovalClass`. */
  function ApprovalClass(likelihood: string): (c: string)
    ensures c in {"success", "warning", "danger"}
    ensures c == "success" <==> likelihood == "High"
    ensures c == "warning" <==> likelihood == "Medium"
  {
    if likelihood == "High" then "success" else if likelihood == "Medium" then "warning" else "danger"
  }

  // ---------------------------------------------------------------------
  // Key factors

  /** `factorLabels`. */
  const FactorLabels: map<string, string> := map[
    "peak_season" := "Peak Season", "documents_complete" := "Documents Complete",
    "has_sponsor" := "Has Sponsor", "express_processing" := "Express Processing",
    "previous_visits" := "Previous Visits", "financial_proof" := "Financial Proof"]

  /** `key.replace(/_/g, ' ')`. */
  function SpaceUnderscores(key: string): (r: string)
    ensures |r| == |key|
    ensures forall i :: 0 <= i < |key| ==> r[i] == (if key[i] == '_' then ' ' else key[i])
    ensures '_' !in r
  {
    if key == [] then []
    else [if key[0] == '_' then ' ' else key[0]] + SpaceUnderscores(key[1..])
  }

  /** A factor's label: the table's, or the key with spaces for underscores. */
  function FactorLabel(key: string): (text: string)
    ensures key in FactorLabels ==> text == FactorLabels[key]
    ensures key !in FactorLabels ==> text == SpaceUnderscores(key)
  {
    if key in FactorLabels then FactorLabels[key] else SpaceUnderscores(key)
  }

  /** A factor's shown value: booleans as Yes/No, numbers by JavaScript's
      number-to-text (a parameter), text unchanged. */
  function DisplayValue(v: Value, numText: real -> string): string {
    match v
    case BoolValue(b) => if b then "Yes" else "No"
    case NumberValue(n) => numText(n)
    case TextValue(s) => s
  }

  /** One appended `div.factor`: its class, label and value. */
  datatype FactorElement = FactorElement(className: string, caption: string, value: string)

  function FactorElementOf(entry: (string, Value), numText: real -> string): FactorElement {
    FactorElement("factor", FactorLabel(entry.0), DisplayValue(entry.1, numText))
  }

  /** The rows for the entries, one per entry in entry order. */
  function FactorElements(entries: seq<(string, Value)>, numText: real -> string): (r: seq<FactorElement>)
    ensures |r| == |entries|
    ensures forall i :: 0 <= i < |entries| ==> r[i] == FactorElementOf(entries[i], numText)
  {
    seq(|entries|, i requires 0 <= i < |entries| => FactorElementOf(entries[i], numText))
  }

  /** The `result-factors` container. */
  class FactorsContainer {
    var children: seq<FactorElement>

    constructor ()
      ensures children == []
    {
      children := [];
    }

    /** `displayFactors`: clears the container, stops on null or missing
        factors, and otherwise appends one element per entry in order. */
    method DisplayFactors(factors: Option<seq<(string, Value)>>, numText: real -> string)
      modifies this
      ensures children == if factors.None? then [] else FactorElements(factors.value, numText)
    {
      children := [];
      if factors.None? {
        return;
      }
      var entries := factors.value;
      for k := 0 to |entries|
        invariant children == FactorElements(entries[..k], numText)
      {
        var (key, value) := entries[k];
        var element := FactorElement("factor", FactorLabel(key), DisplayValue(value, numText));
        children := children + [element];
      }
      assert entries[..|entries|] == entries;
    }
  }

  /** Every boolean factor shows as Yes or No, and every label read from a
      key without a table entry has no underscore. */
  lemma FactorElementsShowBooleansAsYesNo(entries: seq<(string, Value)>, numText: real -> string, i: nat)
    requires i < |entries|
    ensures var e := FactorElements(entries, numText)[i];
      && (entries[i].1.BoolValue? ==> e.value == (if entries[i].1.b then "Yes" else "No"))
      && (entries[i].0 !in FactorLabels ==> '_' !in e.caption)
      && e.className == "factor"
  {
  }
}
