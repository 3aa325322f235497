/** The rule layer of the backend prediction service: the peak-season
    test, the additive risk score, the category-to-code tables, the
    feature vector handed to the regression model, the risk and approval
    classification and the echoed factors. The regression model, the
    scaler and the historical averages are not part of this model. */
module PredictionService {
  import opened Util

  /** The application dictionary given to `predict`; `None` is a key the
      dictionary does not hold, so `.get(key, default)` yields the default. */
  datatype Application = Application(
    applicantAge: Option<int>,
    nationality: Option<string>,
    visaType: Option<string>,
    occupation: Option<string>,
    educationLevel: Option<string>,
    durationRequestedDays: Option<int>,
    numPreviousVisits: Option<int>,
    financialProofUsd: Option<real>,
    hasSponsor: Option<bool>,
    documentsComplete: Option<bool>,
    expressProcessing: Option<bool>,
    applicationMonth: Option<int>)

  /** The dictionary without any key. */
  const EmptyApplication := Application(None, None, None, None, None, None, None, None, None, None, None, None)

  // ---------------------------------------------------------------------
  // Peak season

  const PeakMonths: seq<int> := [10, 11, 12, 1, 2, 3]

  /** 1 for a month of the October-to-March peak, 0 otherwise. */
  function IsPeakSeason(month: int): (r: int)
    ensures r == 0 || r == 1
    ensures r == 1 <==> (1 <= month <= 3 || 10 <= month <= 12)
  {
    if month in PeakMonths then 1 else 0
  }

  // ---------------------------------------------------------------------
  // Risk score

  /** 1 for true, 0 for false. */
  function Indicator(b: bool): int {
    if b then 1 else 0
  }

  /** The five risk factors, with the defaults `calculate_risk_score` uses
      for absent keys (documents and sponsor true, no visits, 20000 USD). */
  predicate DocumentsIncomplete(app: Application) { !app.documentsComplete.GetOr(true) }
  predicate FirstTimeApplicant(app: Application) { app.numPreviousVisits.GetOr(0) == 0 }
  predicate NoSponsor(app: Application) { !app.hasSponsor.GetOr(true) }
  predicate LowFinancialProof(app: Application) { app.financialProofUsd.GetOr(20000.0) < 10000.0 }
  predicate ComplexVisa(app: Application) {
    app.visaType.Some? && app.visaType.value in ["Research", "Employment"]
  }

  /** The risk score as a weighted sum: incomplete documents weigh 2,
      each other factor 1. */
  function RiskScore(app: Application): int {
    2 * Indicator(DocumentsIncomplete(app)) + Indicator(FirstTimeApplicant(app))
    + Indicator(NoSponsor(app)) + Indicator(LowFinancialProof(app)) + Indicator(ComplexVisa(app))
  }

  /** `calculate_risk_score`: adds each factor's points to a running total. */
  method CalculateRiskScore(app: Application) returns (risk: int)
    ensures risk == RiskScore(app)
    ensures 0 <= risk <= 6
  {
    risk := 0;
    if !app.documentsComplete.GetOr(true) {
      risk := risk + 2;
    }
    if app.numPreviousVisits.GetOr(0) == 0 {
      risk := risk + 1;
    }
    if !app.hasSponsor.GetOr(true) {
      risk := risk + 1;
    }
    if app.financialProofUsd.GetOr(20000.0) < 10000.0 {
      risk := risk + 1;
    }
    if app.visaType.Some? && app.visaType.value in ["Research", "Employment"] {
      risk := risk + 1;
    }
  }

  lemma RiskScoreRange(app: Application)
    ensures 0 <= RiskScore(app) <= 6
    ensures RiskScore(app) == 6 <==>
      DocumentsIncomplete(app) && FirstTimeApplicant(app) && NoSponsor(app)
      && LowFinancialProof(app) && ComplexVisa(app)
    ensures RiskScore(app) == 0 <==>
      !DocumentsIncomplete(app) && !FirstTimeApplicant(app) && !NoSponsor(app)
      && !LowFinancialProof(app) && !ComplexVisa(app)
  {
  }

  /** With none of the keys the application counts as a first-time
      applicant and nothing else. */
  lemma RiskScoreOfEmptyApplication()
    ensures !DocumentsIncomplete(EmptyApplication) && FirstTimeApplicant(EmptyApplication)
    ensures !NoSponsor(EmptyApplication) && !LowFinancialProof(EmptyApplication)
    ensures !ComplexVisa(EmptyApplication)
    ensures RiskScore(EmptyApplication) == 1
  {
  }

  /** Raising one factor never lowers the score: the score is monotone in
      the set of factors present. */
  lemma {:induction false} RiskScoreMonotone(a: Application, b: Application)
    requires DocumentsIncomplete(a) ==> DocumentsIncomplete(b)
    requires FirstTimeApplicant(a) ==> FirstTimeApplicant(b)
    requires NoSponsor(a) ==> NoSponsor(b)
    requires LowFinancialProof(a) ==> LowFinancialProof(b)
    requires ComplexVisa(a) ==> ComplexVisa(b)
    ensures RiskScore(a) <= RiskScore(b)
  {
  }

  // ---------------------------------------------------------------------
  // Risk level and approval likelihood

  datatype Level = Low | Medium | High {
    /** The text the service puts in its JSON answer. */
    function Name(): string {
      match this
      case Low => "Low"
      case Medium => "Medium"
      case High => "High"
    }
  }

  /** `risk_level`: Low up to 1, Medium for 2 and 3, High from 4. */
  function RiskLevel(score: int): (r: Level)
    ensures r == Low <==> score <= 1
    ensures r == Medium <==> 2 <= score <= 3
    ensures r == High <==> 4 <= score
  {
    if score <= 1 then Low else if score <= 3 then Medium else High
  }

  datatype Approval = Approval(likelihood: Level, percentage: int)

  /** The approval likelihood and percentage chosen from the risk score. */
  function ApprovalFor(score: int): (a: Approval)
    ensures a.likelihood == High <==> score <= 1
    ensures a.likelihood == Medium <==> 2 <= score <= 3
    ensures a.likelihood == Low <==> 4 <= score
    ensures a in {Approval(High, 85), Approval(Medium, 70), Approval(Low, 50)}
  {
    if score <= 1 then Approval(High, 85)
    else if score <= 3 then Approval(Medium, 70)
    else Approval(Low, 50)
  }

  /** The approval likelihood mirrors the risk level. */
  function Mirror(l: Level): Level {
    match l
    case Low => High
    case Medium => Medium
    case High => Low
  }

  lemma ApprovalMirrorsRisk(score: int)
    ensures ApprovalFor(score).likelihood == Mirror(RiskLevel(score))
    ensures RiskLevel(score) == Mirror(ApprovalFor(score).likelihood)
    ensures ApprovalFor(score).percentage in {85, 70, 50}
  {
  }

  /** A higher risk score never promises a higher approval percentage. */
  lemma ApprovalPercentageNonIncreasing(s1: int, s2: int)
    requires s1 <= s2
    ensures ApprovalFor(s2).percentage <= ApprovalFor(s1).percentage
  {
  }

  // ---------------------------------------------------------------------
  // Category-to-code tables

  const EducationCodes: map<string, int> := map[
    "10th Pass" := 0, "12th Pass" := 1, "Graduate" := 2,
    "Post Graduate" := 3, "Doctorate" := 4]

  const VisaTypeCodes: map<string, int> := map[
    "Business" := 0, "Conference" := 1, "Employment" := 2, "Entry" := 3,
    "Medical" := 4, "Research" := 5, "Student" := 6, "Tourist" := 7]

  const NationalityCodes: map<string, int> := map[
    "Australia" := 0, "Bangladesh" := 1, "Brazil" := 2, "Canada" := 3,
    "China" := 4, "France" := 5, "Germany" := 6, "Italy" := 7,
    "Japan" := 8, "Malaysia" := 9, "Nepal" := 10, "Russia" := 11,
    "Singapore" := 12, "South Africa" := 13, "South Korea" := 14,
    "Sri Lanka" := 15, "Thailand" := 16, "UAE" := 17, "UK" := 18, "USA" := 19]

  const OccupationCodes: map<string, int> := map[
    "Academic" := 0, "Business Owner" := 1, "Government Employee" := 2,
    "Homemaker" := 3, "Professional" := 4, "Retired" := 5,
    "Self Employed" := 6, "Student" := 7]

  /** The keys of each table in the order the table lists them. */
  const EducationNames: seq<string> := ["10th Pass", "12th Pass", "Graduate", "Post Graduate", "Doctorate"]
  const VisaTypeNames: seq<string> := [
    "Business", "Conference", "Employment", "Entry", "Medical", "Research", "Student", "Tourist"]
  const NationalityNames: seq<string> := [
    "Australia", "Bangladesh", "Brazil", "Canada", "China", "France", "Germany", "Italy",
    "Japan", "Malaysia", "Nepal", "Russia", "Singapore", "South Africa", "South Korea",
    "Sri Lanka", "Thailand", "UAE", "UK", "USA"]
  const OccupationNames: seq<string> := [
    "Academic", "Business Owner", "Government Employee", "Homemaker", "Professional",
    "Retired", "Self Employed", "Student"]

  /** Each table numbers its keys 0..n-1 in the order it lists them. */
  lemma EducationTableInOrder()
    ensures NumbersInOrder(EducationCodes, EducationNames)
  {
    assert Elements(EducationNames) == EducationCodes.Keys;
  }

  /** The visa-type table numbers its keys 0..n-1 in the order it lists them. */
  lemma VisaTypeTableInOrder()
    ensures NumbersInOrder(VisaTypeCodes, VisaTypeNames)
  {
    var n := VisaTypeNames;
    assert Elements(n) == VisaTypeCodes.Keys;
  }

  /** The visa-type table lists its keys in sorted order. */
  lemma VisaTypeNamesSorted()
    ensures StrictlySorted(VisaTypeNames)
  {
    var n := VisaTypeNames;
    assert Less(n[0], n[1]) && Less(n[1], n[2]) && Less(n[2], n[3]) && Less(n[3], n[4]);
    assert Less(n[4], n[5]) && Less(n[5], n[6]) && Less(n[6], n[7]);
    AdjacentSorted(n);
  }

  /** The nationality table numbers its keys 0..n-1 in the order it lists
      them (checked a few entries at a time). */
  lemma NationalityTableInOrder()
    ensures NumbersInOrder(NationalityCodes, NationalityNames)
  {
    assert Elements(NationalityNames) == NationalityCodes.Keys;
    NationalityCodesFrom0();
    NationalityCodesFrom3();
    NationalityCodesFrom6();
    NationalityCodesFrom10();
  }

  lemma NationalityCodesFrom0()
    ensures forall i :: 0 <= i < 3 ==> NationalityCodes[NationalityNames[i]] == i
  {
    var t, n := NationalityCodes, NationalityNames;
    assert t[n[0]] == 0 && t[n[1]] == 1 && t[n[2]] == 2;
  }

  lemma NationalityCodesFrom3()
    ensures forall i :: 3 <= i < 6 ==> NationalityCodes[NationalityNames[i]] == i
  {
    var t, n := NationalityCodes, NationalityNames;
    assert t[n[3]] == 3 && t[n[4]] == 4 && t[n[5]] == 5;
  }

  lemma NationalityCodesFrom6()
    ensures forall i :: 6 <= i < 10 ==> NationalityCodes[NationalityNames[i]] == i
  {
    var t, n := NationalityCodes, NationalityNames;
    assert t[n[6]] == 6 && t[n[7]] == 7 && t[n[8]] == 8 && t[n[9]] == 9;
  }

  lemma NationalityCodesFrom10()
    ensures forall i :: 10 <= i < 20 ==> NationalityCodes[NationalityNames[i]] == i
  {
    var t, n := NationalityCodes, NationalityNames;
    assert t[n[10]] == 10 && t[n[11]] == 11 && t[n[12]] == 12 && t[n[13]] == 13 && t[n[14]] == 14;
    assert t[n[15]] == 15 && t[n[16]] == 16 && t[n[17]] == 17 && t[n[18]] == 18 && t[n[19]] == 19;
  }

  /** The nationality table lists its keys in sorted order (checked a few
      neighbours at a time). */
  lemma NationalityNamesSorted()
    ensures StrictlySorted(NationalityNames)
  {
    NationalityNamesAdjacentFrom0();
    NationalityNamesAdjacentFrom4();
    NationalityNamesAdjacentFrom8();
    NationalityNamesAdjacentFrom12();
    NationalityNamesAdjacentFrom14();
    NationalityNamesAdjacentFrom16();
    AdjacentSorted(NationalityNames);
  }

  lemma NationalityNamesAdjacentFrom0()
    ensures forall i :: 0 <= i < 4 ==> Less(NationalityNames[i], NationalityNames[i + 1])
  {
    var n := NationalityNames;
    assert Less(n[0], n[1]) && Less(n[1], n[2]) && Less(n[2], n[3]) && Less(n[3], n[4]);
  }

  lemma NationalityNamesAdjacentFrom4()
    ensures forall i :: 4 <= i < 8 ==> Less(NationalityNames[i], NationalityNames[i + 1])
  {
    var n := NationalityNames;
    assert Less(n[4], n[5]) && Less(n[5], n[6]) && Less(n[6], n[7]) && Less(n[7], n[8]);
  }

  lemma NationalityNamesAdjacentFrom8()
    ensures forall i :: 8 <= i < 12 ==> Less(NationalityNames[i], NationalityNames[i + 1])
  {
    var n := NationalityNames;
    assert Less(n[8], n[9]) && Less(n[9], n[10]) && Less(n[10], n[11]) && Less(n[11], n[12]);
  }

  lemma NationalityNamesAdjacentFrom12()
    ensures forall i :: 12 <= i < 14 ==> Less(NationalityNames[i], NationalityNames[i + 1])
  {
    var n := NationalityNames;
    assert Less(n[12], n[13]) by { LessAtFirstDifference(n[12], n[13], 1); }
    assert Less(n[13], n[14]) by { LessAtFirstDifference(n[13], n[14], 6); }
  }

  lemma NationalityNamesAdjacentFrom14()
    ensures forall i :: 14 <= i < 16 ==> Less(NationalityNames[i], NationalityNames[i + 1])
  {
    var n := NationalityNames;
    assert Less(n[14], n[15]) && Less(n[15], n[16]);
  }

  lemma NationalityNamesAdjacentFrom16()
    ensures forall i :: 16 <= i < 19 ==> Less(NationalityNames[i], NationalityNames[i + 1])
  {
    var n := NationalityNames;
    assert Less(n[16], n[17]) && Less(n[17], n[18]) && Less(n[18], n[19]);
  }

  /** The occupation table numbers its keys 0..n-1 in the order it lists them. */
  lemma OccupationTableInOrder()
    ensures NumbersInOrder(OccupationCodes, OccupationNames)
  {
    var n := OccupationNames;
    assert Elements(n) == OccupationCodes.Keys;
  }

  /** The occupation table lists its keys in sorted order. */
  lemma OccupationNamesSorted()
    ensures StrictlySorted(OccupationNames)
  {
    var n := OccupationNames;
    assert Less(n[0], n[1]) && Less(n[1], n[2]) && Less(n[2], n[3]) && Less(n[3], n[4]);
    assert Less(n[4], n[5]) && Less(n[5], n[6]) && Less(n[6], n[7]);
    AdjacentSorted(n);
  }

  /** `table.get(name, fallback)`. */
  function Lookup(table: map<string, int>, name: string, fallback: int): int {
    if name in table then table[name] else fallback
  }

  // ---------------------------------------------------------------------
  // Feature vector, result and factors

  /** The integer part of the feature vector handed to the scaler (the
      two historical averages are left out). */
  datatype Features = Features(
    applicantAge: int,
    durationRequestedDays: int,
    numPreviousVisits: int,
    financialProofUsd: real,
    hasSponsor: int,
    documentsComplete: int,
    expressProcessing: int,
    isPeakSeason: int,
    educationEncoded: int,
    visaTypeEncoded: int,
    nationalityEncoded: int,
    occupationEncoded: int,
    riskScore: int)

  /** The default names `predict` uses for absent keys. */
  function NationalityName(app: Application): string { app.nationality.GetOr("USA") }
  function VisaTypeName(app: Application): string { app.visaType.GetOr("Tourist") }
  function EducationName(app: Application): string { app.educationLevel.GetOr("Graduate") }
  function OccupationName(app: Application): string { app.occupation.GetOr("Professional") }
  function Month(app: Application): int { app.applicationMonth.GetOr(1) }

  /** The integer feature vector built from the application and the risk
      score, with `predict`'s defaults and fallback codes. */
  function FeaturesOf(app: Application, riskScore: int): Features {
    Features(
      applicantAge := app.applicantAge.GetOr(30),
      durationRequestedDays := app.durationRequestedDays.GetOr(30),
      numPreviousVisits := app.numPreviousVisits.GetOr(0),
      financialProofUsd := app.financialProofUsd.GetOr(15000.0),
      hasSponsor := Indicator(app.hasSponsor.GetOr(false)),
      documentsComplete := Indicator(app.documentsComplete.GetOr(true)),
      expressProcessing := Indicator(app.expressProcessing.GetOr(false)),
      isPeakSeason := IsPeakSeason(Month(app)),
      educationEncoded := Lookup(EducationCodes, EducationName(app), 2),
      visaTypeEncoded := Lookup(VisaTypeCodes, VisaTypeName(app), 7),
      nationalityEncoded := Lookup(NationalityCodes, NationalityName(app), 19),
      occupationEncoded := Lookup(OccupationCodes, OccupationName(app), 4),
      riskScore := riskScore)
  }

  /** A name outside its table is encoded as the table's default name:
      each fallback code is the code of the name used when the key is
      absent, and every code lies in the table's range. */
  lemma EducationFallback(app: Application, risk: int)
    ensures var name := EducationName(app);
      FeaturesOf(app, risk).educationEncoded == EducationCodes[if name in EducationCodes then name else "Graduate"]
    ensures 0 <= FeaturesOf(app, risk).educationEncoded < 5
  {
    EducationTableInOrder();
    CodeInRange(EducationCodes, EducationNames, EducationName(app));
  }

  lemma VisaTypeFallback(app: Application, risk: int)
    ensures var name := VisaTypeName(app);
      FeaturesOf(app, risk).visaTypeEncoded == VisaTypeCodes[if name in VisaTypeCodes then name else "Tourist"]
    ensures 0 <= FeaturesOf(app, risk).visaTypeEncoded < 8
  {
    VisaTypeTableInOrder();
    CodeInRange(VisaTypeCodes, VisaTypeNames, VisaTypeName(app));
  }

  lemma NationalityFallback(app: Application, risk: int)
    ensures var name := NationalityName(app);
      FeaturesOf(app, risk).nationalityEncoded == NationalityCodes[if name in NationalityCodes then name else "USA"]
    ensures 0 <= FeaturesOf(app, risk).nationalityEncoded < 20
  {
    NationalityTableInOrder();
    CodeInRange(NationalityCodes, NationalityNames, NationalityName(app));
    assert NationalityNames[19] == "USA";
  }

  lemma OccupationFallback(app: Application, risk: int)
    ensures var name := OccupationName(app);
      FeaturesOf(app, risk).occupationEncoded == OccupationCodes[if name in OccupationCodes then name else "Professional"]
    ensures 0 <= FeaturesOf(app, risk).occupationEncoded < 8
  {
    OccupationTableInOrder();
    CodeInRange(OccupationCodes, OccupationNames, OccupationName(app));
  }

  lemma CodeInRange(table: map<string, int>, names: seq<string>, name: string)
    requires NumbersInOrder(table, names)
    ensures name in table ==> 0 <= table[name] < |names|
  {
    if name in table {
      var i :| 0 <= i < |names| && names[i] == name;
    }
  }

  /** The factors echoed to the browser, in the order the service lists them. */
  function FactorsOf(app: Application): seq<(string, Value)> {
    [("documents_complete", BoolValue(app.documentsComplete.GetOr(true))),
     ("has_sponsor", BoolValue(app.hasSponsor.GetOr(false))),
     ("express_processing", BoolValue(app.expressProcessing.GetOr(false))),
     ("previous_visits", NumberValue(app.numPreviousVisits.GetOr(0) as real))]
  }

  /** The factors show the same values, with the same defaults, as the
      feature vector the model sees. */
  lemma FactorsMatchFeatures(app: Application, risk: int)
    ensures var fs := FactorsOf(app); var f := FeaturesOf(app, risk);
      && |fs| == 4
      && fs[0] == ("documents_complete", BoolValue(f.documentsComplete == 1))
      && fs[1] == ("has_sponsor", BoolValue(f.hasSponsor == 1))
      && fs[2] == ("express_processing", BoolValue(f.expressProcessing == 1))
      && fs[3] == ("previous_visits", NumberValue(f.numPreviousVisits as real))
  {
  }

  /** The part of `predict`'s answer that does not come from the model. */
  datatype Prediction = Prediction(
    features: Features,
    riskScore: int,
    riskLevel: Level,
    approval: Approval,
    isPeakSeason: bool,
    factors: seq<(string, Value)>)

  /** The service object: `_setup_encodings` fills its encoding maps. */
  class VisaPredictionService {
    var encodingMaps: map<string, map<string, int>>

    ghost predicate Valid()
      reads this
    {
      && "education" in encodingMaps && encodingMaps["education"] == EducationCodes
      && "visa_type" in encodingMaps && encodingMaps["visa_type"] == VisaTypeCodes
      && "nationality" in encodingMaps && encodingMaps["nationality"] == NationalityCodes
      && "occupation" in encodingMaps && encodingMaps["occupation"] == OccupationCodes
    }

    /** Starts with no maps and sets them up (loading the model, the
        scaler and the data set is not part of this model). */
    constructor ()
      ensures Valid()
      ensures encodingMaps.Keys == {"education", "visa_type", "nationality", "occupation"}
    {
      encodingMaps := map[];
      new;
      SetupEncodings();
    }

    method SetupEncodings()
      modifies this
      ensures Valid()
      ensures encodingMaps == old(encodingMaps)["education" := EducationCodes]["visa_type" := VisaTypeCodes]
                                               ["nationality" := NationalityCodes]["occupation" := OccupationCodes]
    {
      encodingMaps := encodingMaps["education" := EducationCodes];
      encodingMaps := encodingMaps["visa_type" := VisaTypeCodes];
      encodingMaps := encodingMaps["nationality" := NationalityCodes];
      encodingMaps := encodingMaps["occupation" := OccupationCodes];
    }

    /** `predict` without the model: the features, the classification and
        the factors. */
    method Predict(app: Application) returns (p: Prediction)
      requires Valid()
      ensures p.riskScore == RiskScore(app) && 0 <= p.riskScore <= 6
      ensures p.features == FeaturesOf(app, p.riskScore)
      ensures p.riskLevel == RiskLevel(p.riskScore)
      ensures p.approval == ApprovalFor(p.riskScore)
      ensures p.isPeakSeason <==> (1 <= Month(app) <= 3 || 10 <= Month(app) <= 12)
      ensures p.factors == FactorsOf(app)
    {
      var nationality := app.nationality.GetOr("USA");
      var visaType := app.visaType.GetOr("Tourist");
      var month := app.applicationMonth.GetOr(1);
      var isPeak := IsPeakSeason(month);
      var riskScore := CalculateRiskScore(app);
      var features := Features(
        applicantAge := app.applicantAge.GetOr(30),
        durationRequestedDays := app.durationRequestedDays.GetOr(30),
        numPreviousVisits := app.numPreviousVisits.GetOr(0),
        financialProofUsd := app.financialProofUsd.GetOr(15000.0),
        hasSponsor := if app.hasSponsor.GetOr(false) then 1 else 0,
        documentsComplete := if app.documentsComplete.GetOr(true) then 1 else 0,
        expressProcessing := if app.expressProcessing.GetOr(false) then 1 else 0,
        isPeakSeason := isPeak,
        educationEncoded := Lookup(encodingMaps["education"], app.educationLevel.GetOr("Graduate"), 2),
        visaTypeEncoded := Lookup(encodingMaps["visa_type"], visaType, 7),
        nationalityEncoded := Lookup(encodingMaps["nationality"], nationality, 19),
        occupationEncoded := Lookup(encodingMaps["occupation"], app.occupation.GetOr("Professional"), 4),
        riskScore := riskScore);
      var approval;
      if riskScore <= 1 {
        approval := Approval(High, 85);
      } else if riskScore <= 3 {
        approval := Approval(Medium, 70);
      } else {
        approval := Approval(Low, 50);
      }
      var level := if riskScore <= 1 then Low else if riskScore <= 3 then Medium else High;
      p := Prediction(features, riskScore, level, approval, isPeak == 1, FactorsOf(app));
    }
  }
}
