/** Agreement between the files: the training-time rules, the generator,
    the prediction service and the page compute the same thing wherever
    the design relies on them being the same. */
module CrossChecks {
  import opened Util
  import opened Frames
  import PredictionService
  import FeatureEngineering
  import DataPreprocessing
  import SyntheticData
  import Frontend
  import BackendApp

  function Bit(b: bool): Cell {
    Num(if b then 1.0 else 0.0)
  }

  /** The training-time risk score of a row equals the service's score for
      the same applicant, provided the row's `previous_visa` says "No"
      exactly when the visit count is 0 (the generator guarantees this). */
  lemma RiskScoresAgree(app: PredictionService.Application, previousVisa: string)
    requires app.documentsComplete.Some? && app.hasSponsor.Some? && app.financialProofUsd.Some?
    requires app.numPreviousVisits.Some? && app.visaType.Some?
    requires previousVisa == "No" <==> app.numPreviousVisits.value == 0
    ensures FeatureEngineering.RowRiskScore(
      Bit(app.documentsComplete.value), Str(previousVisa), Bit(app.hasSponsor.value),
      Num(app.financialProofUsd.value), Str(app.visaType.value))
      == PredictionService.RiskScore(app)
  {
    assert FeatureEngineering.FactorPoints(4, Str(app.visaType.value))
      == PredictionService.Indicator(PredictionService.ComplexVisa(app));
  }

  /** The generator's records satisfy the agreement condition above. */
  lemma GeneratedRecordsAgreeOnFirstVisit(i: nat, d: SyntheticData.Draws, r: SyntheticData.Record)
    requires SyntheticData.WellFormed(d) && SyntheticData.RecordRules(i, d, r)
    ensures r.previousVisa == "No" <==> r.numPreviousVisits == 0
  {
    SyntheticData.RecordInvariants(i, d, r);
  }

  /** The service's peak test, the training season and the generator's
      peak delay pick the same months. */
  lemma PeakTestsAgree(month: int)
    ensures PredictionService.IsPeakSeason(month) == 1
      <==> FeatureEngineering.SeasonOf(Num(month as real)) == Str("Peak")
    ensures PredictionService.IsPeakSeason(month) == 1 <==> month in SyntheticData.PeakMonths
  {
  }

  /** The service's hard-coded code tables are what label encoding of the
      generated names produces. */
  lemma VisaTypeTableIsLabelEncoding(series: seq<string>)
    requires Elements(series) == Elements(SyntheticData.VisaTypes)
    ensures DataPreprocessing.LabelMapping(series) == PredictionService.VisaTypeCodes
  {
    assert Elements(SyntheticData.VisaTypes) == Elements(PredictionService.VisaTypeNames);
    PredictionService.VisaTypeNamesSorted();
    PredictionService.VisaTypeTableInOrder();
    DataPreprocessing.LabelMappingOfSortedNames(series, PredictionService.VisaTypeNames);
    NumbersInOrderUnique(DataPreprocessing.LabelMapping(series), PredictionService.VisaTypeCodes,
      PredictionService.VisaTypeNames);
  }

  lemma NationalityTableIsLabelEncoding(series: seq<string>)
    requires Elements(series) == Elements(SyntheticData.Countries)
    ensures DataPreprocessing.LabelMapping(series) == PredictionService.NationalityCodes
  {
    assert Elements(SyntheticData.Countries) == Elements(PredictionService.NationalityNames);
    PredictionService.NationalityNamesSorted();
    PredictionService.NationalityTableInOrder();
    DataPreprocessing.LabelMappingOfSortedNames(series, PredictionService.NationalityNames);
    NumbersInOrderUnique(DataPreprocessing.LabelMapping(series), PredictionService.NationalityCodes,
      PredictionService.NationalityNames);
  }

  lemma OccupationTableIsLabelEncoding(series: seq<string>)
    requires Elements(series) == Elements(SyntheticData.OccupationTypes)
    ensures DataPreprocessing.LabelMapping(series) == PredictionService.OccupationCodes
  {
    assert Elements(SyntheticData.OccupationTypes) == Elements(PredictionService.OccupationNames);
    PredictionService.OccupationNamesSorted();
    PredictionService.OccupationTableInOrder();
    DataPreprocessing.LabelMappingOfSortedNames(series, PredictionService.OccupationNames);
    NumbersInOrderUnique(DataPreprocessing.LabelMapping(series), PredictionService.OccupationCodes,
      PredictionService.OccupationNames);
  }

  /** The service's education codes are the ordinal training codes, which
      number the generator's levels from lowest to highest. */
  lemma EducationTablesAgree()
    ensures PredictionService.EducationCodes == DataPreprocessing.EducationOrder
    ensures NumbersInOrder(DataPreprocessing.EducationOrder, SyntheticData.EducationLevels)
  {
    PredictionService.EducationTableInOrder();
    DataPreprocessing.EducationOrderInOrder();
    NumbersInOrderUnique(PredictionService.EducationCodes, DataPreprocessing.EducationOrder,
      PredictionService.EducationNames);
  }

  /** The efficiency feature expects each visa type's generator base days. */
  lemma ExpectedTimesAreBaseDays()
    ensures FeatureEngineering.ExpectedTimes == SyntheticData.BaseDays
  {
  }

  /** The page colours the risk level and the approval likelihood the
      service returns for one score alike, and its gauge class follows
      the same thresholds as the risk level for whole scores. */
  lemma PageClassesFollowLevels(score: int)
    ensures Frontend.RiskClass(PredictionService.RiskLevel(score).Name())
      == Frontend.ApprovalClass(PredictionService.ApprovalFor(score).likelihood.Name())
    ensures Frontend.GaugeClass(score as real) == "low" <==> PredictionService.RiskLevel(score).Low?
    ensures Frontend.GaugeClass(score as real) == "medium" <==> PredictionService.RiskLevel(score).Medium?
    ensures Frontend.GaugeClass(score as real) == "high" <==> PredictionService.RiskLevel(score).High?
  {
  }

  /** The page's fallback values are inside the server's field bounds and
      equal to its defaults, except that the page coerces an entered 0 for
      the financial proof to 15000, which the server would accept as 0. */
  lemma PageDefaultsWithinServerBounds()
    ensures 1.0 <= Frontend.DefaultDuration <= 365.0 && Frontend.DefaultVisits >= 0.0
    ensures Frontend.DefaultFinancialProof >= 0.0 && 1.0 <= Frontend.DefaultMonth <= 12.0
    ensures BackendApp.FloatField(Some(BackendApp.JNumber(0.0)), 15000.0, 0.0) == Ok(0.0)
    ensures var page := Frontend.CollectFormData(Frontend.FormFields(
        Frontend.Number(30.0), "USA", "Tourist", "Professional", "Graduate", Frontend.NaN, Frontend.NaN,
        Frontend.Number(0.0), false, true, false, Frontend.NaN));
      page.durationRequestedDays == 30.0 && page.numPreviousVisits == 0.0
      && page.financialProofUsd == 15000.0 && page.applicationMonth == 1.0
    ensures var r := BackendApp.Validate(map["applicant_age" := BackendApp.JNumber(30.0),
        "nationality" := BackendApp.JString("USA"), "visa_type" := BackendApp.JString("Tourist")]);
      && r.Ok?
      && Frontend.DefaultDuration == r.value.durationRequestedDays as real
      && Frontend.DefaultVisits == r.value.numPreviousVisits as real
      && Frontend.DefaultFinancialProof == r.value.financialProofUsd
      && Frontend.DefaultMonth == r.value.applicationMonth as real
  {
    BackendApp.ValidateDefaults(30, "USA", "Tourist");
  }
}
