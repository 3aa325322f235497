/** The row-level feature rules of the training pipeline. Each `create_*`
    step adds its columns to the frame in place; a step whose input column
    is missing stops with a KeyError, keeping what it had already added. */
module FeatureEngineering {
  import opened Util
  import opened Frames
  import DataPreprocessing

  /** The number pandas compares a cell as: booleans are 0 and 1; a missing
      (or text) cell has none. */
  function NumberOf(c: Cell): Option<real> {
    match c
    case Num(x) => Some(x)
    case Flag(b) => Some(if b then 1.0 else 0.0)
    case _ => None
  }

  /** The column made by applying f to every cell of col. */
  function MapColumn(col: seq<Cell>, f: Cell -> Cell): (r: seq<Cell>)
    ensures |r| == |col| && forall i :: 0 <= i < |col| ==> r[i] == f(col[i])
  {
    seq(|col|, i requires 0 <= i < |col| => f(col[i]))
  }

  // ---------------------------------------------------------------------
  // Seasonal feature

  const PeakMonths: seq<real> := [10.0, 11.0, 12.0, 1.0, 2.0, 3.0]

  /** A whole month number in October..December or January..March. */
  predicate PeakMonth(m: real) {
    m == m.Floor as real && (1.0 <= m <= 3.0 || 10.0 <= m <= 12.0)
  }

  /** `'Peak' if x in peak_months else 'Off-Peak'`. */
  function SeasonOf(month: Cell): (s: Cell)
    ensures s == Str("Peak") || s == Str("Off-Peak")
    ensures s == Str("Peak") <==> NumberOf(month).Some? && PeakMonth(NumberOf(month).value)
  {
    if NumberOf(month).Some? && NumberOf(month).value in PeakMonths then Str("Peak") else Str("Off-Peak")
  }

  /** `(season == 'Peak').astype(int)`. */
  function PeakFlag(season: Cell): Cell {
    if season == Str("Peak") then Num(1.0) else Num(0.0)
  }

  /** The frame after `create_seasonal_feature`: it gains `season` and
      `is_peak_season`, the flag is 1 exactly on peak-season rows and 0
      elsewhere, and no other column changes. */
  function SeasonalColumns(cols: Columns, rows: nat): (r: Columns)
    requires Rectangular(cols, rows) && "application_month" in cols
    ensures AddsOnly(cols, r, {"season", "is_peak_season"}) && Rectangular(r, rows)
    ensures forall i :: 0 <= i < rows ==>
      var month := cols["application_month"][i];
      && (r["is_peak_season"][i] == Num(1.0) <==> r["season"][i] == Str("Peak"))
      && (r["season"][i] == Str("Peak") <==> NumberOf(month).Some? && PeakMonth(NumberOf(month).value))
      && (r["is_peak_season"][i] == Num(1.0) || r["is_peak_season"][i] == Num(0.0))
  {
    var season := MapColumn(cols["application_month"], SeasonOf);
    cols["season" := season]["is_peak_season" := MapColumn(season, PeakFlag)]
  }

  /** `create_seasonal_feature`; false when `application_month` is missing,
      in which case the frame is unchanged, and false as well when
      `processing_time_days` (read for the averages after the two columns
      are added) is missing, in which case the two columns stay added. */
  method CreateSeasonalFeature(df: DataFrame) returns (ok: bool)
    requires df.Valid()
    modifies df
    ensures df.Valid() && df.rows == old(df.rows)
    ensures ok <==> "application_month" in old(df.columns) && "processing_time_days" in old(df.columns)
    ensures df.columns ==
      if "application_month" in old(df.columns) then SeasonalColumns(old(df.columns), old(df.rows)) else old(df.columns)
  {
    if "application_month" !in df.columns {
      return false;
    }
    df.SetColumn("season", MapColumn(df.columns["application_month"], SeasonOf));
    df.SetColumn("is_peak_season", MapColumn(df.columns["season"], PeakFlag));
    ok := "processing_time_days" in df.columns;
  }

  // ---------------------------------------------------------------------
  // Age groups

  datatype AgeGroup = Young | Adult | MiddleAged | Senior {
    function Label(): string {
      match this
      case Young => "Young"
      case Adult => "Adult"
      case MiddleAged => "Middle-Aged"
      case Senior => "Senior"
    }

    /** `age_group_map`. */
    function Code(): int {
      match this
      case Young => 0
      case Adult => 1
      case MiddleAged => 2
      case Senior => 3
    }
  }

  /** `pd.cut(age, bins=[0, 25, 35, 50, 100])`: right-inclusive bins; an age
      outside (0, 100] gets no group. */
  function AgeGroupOf(age: real): (g: Option<AgeGroup>)
    ensures g.Some? <==> 0.0 < age <= 100.0
    ensures g == Some(Young) <==> 0.0 < age <= 25.0
    ensures g == Some(Adult) <==> 25.0 < age <= 35.0
    ensures g == Some(MiddleAged) <==> 35.0 < age <= 50.0
    ensures g == Some(Senior) <==> 50.0 < age <= 100.0
  {
    if age <= 0.0 || age > 100.0 then None
    else if age <= 25.0 then Some(Young)
    else if age <= 35.0 then Some(Adult)
    else if age <= 50.0 then Some(MiddleAged)
    else Some(Senior)
  }

  /** Older applicants never get a smaller group code. */
  lemma AgeGroupCodeMonotone(a: real, b: real)
    requires a <= b && AgeGroupOf(a).Some? && AgeGroupOf(b).Some?
    ensures AgeGroupOf(a).value.Code() <= AgeGroupOf(b).value.Code()
  {
  }

  function GroupCell(age: Cell): Cell {
    if NumberOf(age).Some? && AgeGroupOf(NumberOf(age).value).Some? then
      Str(AgeGroupOf(NumberOf(age).value).value.Label())
    else Null
  }

  function GroupCodeCell(age: Cell): Cell {
    if NumberOf(age).Some? && AgeGroupOf(NumberOf(age).value).Some? then
      Num(AgeGroupOf(NumberOf(age).value).value.Code() as real)
    else Null
  }

  /** The frame after `create_age_group_feature`: it gains `age_group` and
      `age_group_encoded`; a row whose age lies in (0, 100] gets its group's
      label and code, any other row gets neither; nothing else changes. */
  function AgeGroupColumns(cols: Columns, rows: nat): (r: Columns)
    requires Rectangular(cols, rows) && "applicant_age" in cols
    ensures AddsOnly(cols, r, {"age_group", "age_group_encoded"}) && Rectangular(r, rows)
    ensures forall i :: 0 <= i < rows ==>
      var age := NumberOf(cols["applicant_age"][i]);
      && (r["age_group"][i] != Null <==> age.Some? && 0.0 < age.value <= 100.0)
      && (r["age_group_encoded"][i] != Null <==> r["age_group"][i] != Null)
      && (r["age_group_encoded"][i] != Null ==>
            exists g: AgeGroup :: AgeGroupOf(age.value) == Some(g)
              && r["age_group"][i] == Str(g.Label()) && r["age_group_encoded"][i] == Num(g.Code() as real))
  {
    var age := cols["applicant_age"];
    cols["age_group" := MapColumn(age, GroupCell)]["age_group_encoded" := MapColumn(age, GroupCodeCell)]
  }

  /** `create_age_group_feature`; false when `applicant_age` is missing, in
      which case the frame is unchanged. */
  method CreateAgeGroupFeature(df: DataFrame) returns (ok: bool)
    requires df.Valid()
    modifies df
    ensures df.Valid() && df.rows == old(df.rows)
    ensures ok <==> "applicant_age" in old(df.columns)
    ensures df.columns == if ok then AgeGroupColumns(old(df.columns), old(df.rows)) else old(df.columns)
  {
    if "applicant_age" !in df.columns {
      return false;
    }
    var age := df.columns["applicant_age"];
    df.SetColumn("age_group", MapColumn(age, GroupCell));
    df.SetColumn("age_group_encoded", MapColumn(age, GroupCodeCell));
    ok := true;
  }

  // ---------------------------------------------------------------------
  // Risk score

  /** The columns read by the five risk factors, in the order they are added. */
  const FactorCols: seq<string> :=
    ["documents_complete", "previous_visa", "has_sponsor", "financial_proof_usd", "visa_type"]

  /** The points factor k gives a row whose factor column holds c. */
  function FactorPoints(k: nat, c: Cell): int
    requires k < 5
  {
    if k == 0 then (if NumberOf(c) == Some(0.0) then 2 else 0)
    else if k == 1 then (if c == Str("No") then 1 else 0)
    else if k == 2 then (if NumberOf(c) == Some(0.0) then 1 else 0)
    else if k == 3 then (if NumberOf(c).Some? && NumberOf(c).value < 10000.0 then 1 else 0)
    else (if c == Str("Research") || c == Str("Employment") then 1 else 0)
  }

  /** The number of leading factor columns present, where the loop of
      additions stops. */
  function FactorsPresent(cols: Columns): (k: nat)
    ensures k <= 5 && (forall j :: 0 <= j < k ==> FactorCols[j] in cols)
    ensures k < 5 ==> FactorCols[k] !in cols
  {
    if FactorCols[0] !in cols then 0
    else if FactorCols[1] !in cols then 1
    else if FactorCols[2] !in cols then 2
    else if FactorCols[3] !in cols then 3
    else if FactorCols[4] !in cols then 4
    else 5
  }

  /** A row's score after the first k factors. */
  function ScoreAfter(cols: Columns, rows: nat, k: nat, i: nat): int
    requires Rectangular(cols, rows) && i < rows && k <= 5
    requires forall j :: 0 <= j < k ==> FactorCols[j] in cols
  {
    if k == 0 then 0 else ScoreAfter(cols, rows, k - 1, i) + FactorPoints(k - 1, cols[FactorCols[k - 1]][i])
  }

  /** The `risk_score` column after the first k factors. */
  function ScoreColumn(cols: Columns, rows: nat, k: nat): (r: seq<Cell>)
    requires Rectangular(cols, rows) && k <= 5
    requires forall j :: 0 <= j < k ==> FactorCols[j] in cols
    ensures |r| == rows
  {
    seq(rows, i requires 0 <= i < rows => Num(ScoreAfter(cols, rows, k, i) as real))
  }

  /** The risk score of one row from its five factor cells. */
  function RowRiskScore(documentsComplete: Cell, previousVisa: Cell, hasSponsor: Cell,
                        financialProof: Cell, visaType: Cell): (s: int)
    ensures 0 <= s <= 6
    ensures s == 6 <==>
      (&& NumberOf(documentsComplete) == Some(0.0) && previousVisa == Str("No")
       && NumberOf(hasSponsor) == Some(0.0) && NumberOf(financialProof).Some? && NumberOf(financialProof).value < 10000.0
       && (visaType == Str("Research") || visaType == Str("Employment")))
  {
    FactorPoints(0, documentsComplete) + FactorPoints(1, previousVisa) + FactorPoints(2, hasSponsor)
      + FactorPoints(3, financialProof) + FactorPoints(4, visaType)
  }

  /** With every factor column present, each row's accumulated score is its
      row risk score, in 0..6. */
  lemma ScoreColumnIsRowRiskScore(cols: Columns, rows: nat, i: nat)
    requires Rectangular(cols, rows) && i < rows && FactorsPresent(cols) == 5
    ensures ScoreColumn(cols, rows, 5)[i] == Num(RowRiskScore(
      cols["documents_complete"][i], cols["previous_visa"][i], cols["has_sponsor"][i],
      cols["financial_proof_usd"][i], cols["visa_type"][i]) as real)
  {
    assert FactorCols[0] == "documents_complete" && FactorCols[1] == "previous_visa";
    assert FactorCols[2] == "has_sponsor" && FactorCols[3] == "financial_proof_usd" && FactorCols[4] == "visa_type";
    assert ScoreAfter(cols, rows, 1, i) == FactorPoints(0, cols["documents_complete"][i]);
    assert ScoreAfter(cols, rows, 2, i) == ScoreAfter(cols, rows, 1, i) + FactorPoints(1, cols["previous_visa"][i]);
    assert ScoreAfter(cols, rows, 3, i) == ScoreAfter(cols, rows, 2, i) + FactorPoints(2, cols["has_sponsor"][i]);
    assert ScoreAfter(cols, rows, 4, i) == ScoreAfter(cols, rows, 3, i) + FactorPoints(3, cols["financial_proof_usd"][i]);
    assert ScoreAfter(cols, rows, 5, i) == ScoreAfter(cols, rows, 4, i) + FactorPoints(4, cols["visa_type"][i]);
  }

  /** The column of points factor k adds. */
  function PointsColumn(k: nat, col: seq<Cell>): (r: seq<Cell>)
    requires k < 5
    ensures |r| == |col|
  {
    seq(|col|, i requires 0 <= i < |col| => Num(FactorPoints(k, col[i]) as real))
  }

  /** Element-wise `+` of two numeric columns. */
  function AddColumns(a: seq<Cell>, b: seq<Cell>): (r: seq<Cell>)
    requires |a| == |b| && forall i :: 0 <= i < |a| ==> a[i].Num? && b[i].Num?
    ensures |r| == |a|
  {
    seq(|a|, i requires 0 <= i < |a| => Num(a[i].x + b[i].x))
  }

  const RiskScoreName: string := "risk_score"

  /** Adding factor k's points to the score after k factors gives the
      score after k + 1. */
  lemma ScoreColumnStep(cols: Columns, rows: nat, k: nat)
    requires Rectangular(cols, rows) && k < 5
    requires forall j :: 0 <= j <= k ==> FactorCols[j] in cols
    ensures forall i :: 0 <= i < rows ==> ScoreColumn(cols, rows, k)[i].Num?
    ensures AddColumns(ScoreColumn(cols, rows, k), PointsColumn(k, cols[FactorCols[k]])) == ScoreColumn(cols, rows, k + 1)
  {
  }

  lemma RiskScoreIsNoFactor()
    ensures RiskScoreName !in FactorCols
  {
    assert RiskScoreName[0] == 'r';
    assert FactorCols[0][0] == 'd' && FactorCols[1][0] == 'p' && FactorCols[2][0] == 'h';
    assert FactorCols[3][0] == 'f' && FactorCols[4][0] == 'v';
  }

  /** `df['risk_score'] += points(df[FactorCols[k]])`: one step of the
      accumulation; false, leaving the frame as it was, when the factor
      column is missing. */
  method AddFactor(df: DataFrame, k: nat, ghost cols: Columns) returns (ok: bool)
    requires df.Valid() && Rectangular(cols, df.rows) && k < 5
    requires forall j :: 0 <= j < k ==> FactorCols[j] in cols
    requires df.columns == cols[RiskScoreName := ScoreColumn(cols, df.rows, k)]
    modifies df
    ensures df.Valid() && df.rows == old(df.rows)
    ensures ok <==> FactorCols[k] in cols
    ensures df.columns == if ok then cols[RiskScoreName := ScoreColumn(cols, df.rows, k + 1)] else old(df.columns)
  {
    RiskScoreIsNoFactor();
    var name := FactorCols[k];
    if name !in df.columns {
      return false;
    }
    assert df.columns[name] == cols[name];
    ScoreColumnStep(cols, df.rows, k);
    var points := PointsColumn(k, df.columns[name]);
    df.SetColumn(RiskScoreName, AddColumns(df.columns[RiskScoreName], points));
    ok := true;
  }

  /** `create_risk_score_feature`: `risk_score` starts at 0 and each factor
      adds its points. A missing factor column stops the accumulation, with
      the score of the factors before it already stored; a missing
      `processing_time_days`, read for the per-score averages and the
      correlation, fails after the whole score is stored. */
  method CreateRiskScoreFeature(df: DataFrame) returns (ok: bool)
    requires df.Valid()
    modifies df
    ensures df.Valid() && df.rows == old(df.rows)
    ensures ok <==> FactorsPresent(old(df.columns)) == 5 && "processing_time_days" in old(df.columns)
    ensures df.columns == old(df.columns)[RiskScoreName :=
      ScoreColumn(old(df.columns), old(df.rows), FactorsPresent(old(df.columns)))]
  {
    ghost var cols := df.columns;
    var rows := df.rows;
    df.SetColumn(RiskScoreName, seq(rows, i => Num(0.0)));
    assert seq(rows, i => Num(0.0)) == ScoreColumn(cols, rows, 0);
    ok := AddFactor(df, 0, cols);
    if !ok { return; }
    ok := AddFactor(df, 1, cols);
    if !ok { return; }
    ok := AddFactor(df, 2, cols);
    if !ok { return; }
    ok := AddFactor(df, 3, cols);
    if !ok { return; }
    ok := AddFactor(df, 4, cols);
    if !ok { return; }
    ok := "processing_time_days" in df.columns;
  }

  // ---------------------------------------------------------------------
  // Processing efficiency

  /** The expected processing days per visa type. */
  const ExpectedTimes: map<string, int> := map[
    "Tourist" := 5, "Business" := 7, "Employment" := 15, "Student" := 12,
    "Medical" := 3, "Conference" := 5, "Research" := 20, "Entry" := 4]

  /** `processing_time_days / expected_processing_time`; NaN when either is
      missing. The expected time is never 0. */
  function Ratio(days: Cell, expected: Cell): Cell {
    if NumberOf(days).Some? && expected.Num? && expected.x != 0.0 then Num(NumberOf(days).value / expected.x) else Null
  }

  /** `pd.cut(ratio, bins=[0, 0.8, 1.2, inf], labels=['Fast', 'Normal', 'Slow'])`. */
  function EfficiencyCategory(ratio: Cell): Cell {
    if !ratio.Num? || ratio.x <= 0.0 then Null
    else if ratio.x <= 0.8 then Str("Fast")
    else if ratio.x <= 1.2 then Str("Normal")
    else Str("Slow")
  }

  /** With a positive expected time the category follows from integer-style
      cross-multiplication: Fast iff 0 < days and 5·days <= 4·expected,
      Normal iff 4·expected < 5·days <= 6·expected, Slow iff
      5·days > 6·expected; a non-positive time has no category. */
  lemma EfficiencyByCrossMultiplication(days: real, expected: int)
    requires expected > 0
    ensures var c := EfficiencyCategory(Ratio(Num(days), Num(expected as real))); var e := expected as real;
      && (c == Str("Fast") <==> 0.0 < days && 5.0 * days <= 4.0 * e)
      && (c == Str("Normal") <==> 4.0 * e < 5.0 * days <= 6.0 * e)
      && (c == Str("Slow") <==> 5.0 * days > 6.0 * e)
      && (c == Null <==> days <= 0.0)
  {
    var e := expected as real;
    QuotientAtMost(days, e, 0.8);
    QuotientAtMost(days, e, 1.2);
    QuotientAtMost(days, e, 0.0);
  }

  /** Dividing by a positive number keeps an upper bound scaled. */
  lemma QuotientAtMost(x: real, e: real, c: real)
    requires e > 0.0
    ensures x / e <= c <==> x <= c * e
  {
    var q := x / e;
    assert x == q * e;
    if q <= c {
      assert q * e <= c * e;
    } else {
      assert q * e > c * e;
    }
  }

  const EfficiencyCols: set<string> := {"expected_processing_time", "processing_efficiency", "efficiency_category"}

  /** The frame after the first line of `create_processing_efficiency_feature`. */
  function ExpectedColumns(cols: Columns): (r: Columns)
    requires "visa_type" in cols
    ensures AddsOnly(cols, r, {"expected_processing_time"})
    ensures |r["expected_processing_time"]| == |cols["visa_type"]|
    ensures forall i :: 0 <= i < |cols["visa_type"]| ==>
      var visa := cols["visa_type"][i];
      && (r["expected_processing_time"][i] == Null <==> !(visa.Str? && visa.s in ExpectedTimes))
      && (visa.Str? && visa.s in ExpectedTimes ==> r["expected_processing_time"][i] == Num(ExpectedTimes[visa.s] as real))
  {
    cols["expected_processing_time" := DataPreprocessing.MapCells(cols["visa_type"], ExpectedTimes)]
  }

  /** The frame after `create_processing_efficiency_feature`: the three
      efficiency columns are added and nothing else changes; each row's
      expected time is its visa type's table entry, its ratio is days over
      that time, and its category is the ratio's bin. */
  function EfficiencyColumns(cols: Columns, rows: nat): (r: Columns)
    requires Rectangular(cols, rows) && "visa_type" in cols && "processing_time_days" in cols
    ensures AddsOnly(cols, r, EfficiencyCols) && Rectangular(r, rows)
    ensures forall i :: 0 <= i < rows ==>
      var visa := cols["visa_type"][i]; var days := cols["processing_time_days"][i];
      && (visa.Str? && visa.s in ExpectedTimes ==> r["expected_processing_time"][i] == Num(ExpectedTimes[visa.s] as real))
      && (r["expected_processing_time"][i] == Null <==> !(visa.Str? && visa.s in ExpectedTimes))
      && r["processing_efficiency"][i] == Ratio(days, r["expected_processing_time"][i])
      && r["efficiency_category"][i] == EfficiencyCategory(r["processing_efficiency"][i])
  {
    var withExpected := ExpectedColumns(cols);
    var expected := withExpected["expected_processing_time"];
    var days := cols["processing_time_days"];
    var ratio := seq(rows, i requires 0 <= i < rows => Ratio(days[i], expected[i]));
    assert withExpected["processing_time_days"] == days;
    withExpected["processing_efficiency" := ratio]["efficiency_category" := MapColumn(ratio, EfficiencyCategory)]
  }

  /** `create_processing_efficiency_feature`. Without `visa_type` the frame
      is unchanged; without `processing_time_days` only the expected time
      has been added. */
  method CreateProcessingEfficiencyFeature(df: DataFrame) returns (ok: bool)
    requires df.Valid()
    modifies df
    ensures df.Valid() && df.rows == old(df.rows)
    ensures ok <==> "visa_type" in old(df.columns) && "processing_time_days" in old(df.columns)
    ensures df.columns ==
      if ok then EfficiencyColumns(old(df.columns), old(df.rows))
      else if "visa_type" in old(df.columns) then ExpectedColumns(old(df.columns))
      else old(df.columns)
  {
    if "visa_type" !in df.columns {
      return false;
    }
    df.SetColumn("expected_processing_time", DataPreprocessing.MapCells(df.columns["visa_type"], ExpectedTimes));
    if "processing_time_days" !in df.columns {
      return false;
    }
    var days := df.columns["processing_time_days"];
    var expected := df.columns["expected_processing_time"];
    var rows := df.rows;
    var ratio := seq(rows, i requires 0 <= i < rows => Ratio(days[i], expected[i]));
    df.SetColumn("processing_efficiency", ratio);
    df.SetColumn("efficiency_category", MapColumn(df.columns["processing_efficiency"], EfficiencyCategory));
    ok := true;
  }
}
