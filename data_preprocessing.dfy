/** The cleaning and encoding steps of the training pipeline: null
    filling, sorted label encoding, the ordinal education map, one-hot
    visa-type columns and the visa-status codes. The statistics used to
    fill nulls (median, mode) and Python's text for a float are library
    functions given as parameters. */
module DataPreprocessing {
  import opened Util
  import opened Frames

  // ---------------------------------------------------------------------
  // Label encoding

  /** `series.unique()`: the values in order of first occurrence. */
  function Unique(series: seq<string>): (u: seq<string>)
    ensures Distinct(u) && Elements(u) == Elements(series)
  {
    if series == [] then []
    else
      var init := series[..|series| - 1];
      var last := series[|series| - 1];
      var u := Unique(init);
      assert series == init + [last];
      assert Elements(series) == Elements(init) + {last};
      if last in u then u else u + [last]
  }

  lemma MultisetElements(s: seq<string>, t: seq<string>)
    requires multiset(s) == multiset(t)
    ensures Elements(s) == Elements(t)
  {
    forall x ensures x in Elements(s) <==> x in Elements(t) {
      assert x in s <==> x in multiset(s);
      assert x in t <==> x in multiset(t);
    }
  }

  /** `sorted(series.unique())`: the distinct values in increasing order. */
  function SortedValues(series: seq<string>): (r: seq<string>)
    ensures StrictlySorted(r) && Elements(r) == Elements(series)
  {
    var u := Unique(series);
    var r := Sort(u);
    MultisetElements(r, u);
    r
  }

  /** The position of x in s. */
  function IndexOf(s: seq<string>, x: string): (k: nat)
    requires x in s
    ensures k < |s| && s[k] == x
  {
    if s[0] == x then 0 else 1 + IndexOf(s[1..], x)
  }

  /** `{val: idx for idx, val in enumerate(sorted(unique_vals))}`. */
  function LabelMapping(series: seq<string>): map<string, int> {
    var values := SortedValues(series);
    map v | v in values :: IndexOf(values, v)
  }

  /** `series.map(mapping)`: the code of every row. */
  function Encode(series: seq<string>, mapping: map<string, int>): seq<int>
    requires forall i :: 0 <= i < |series| ==> series[i] in mapping
  {
    seq(|series|, i requires 0 <= i < |series| => mapping[series[i]])
  }

  /** `label_encode_column`: the encoded series and its mapping. */
  function LabelEncodeColumn(series: seq<string>): (r: (seq<int>, map<string, int>))
    ensures r.1 == LabelMapping(series)
    ensures r.1.Keys == Elements(series)
    ensures |r.0| == |series| && forall i :: 0 <= i < |series| ==> r.0[i] == r.1[series[i]]
  {
    var mapping := LabelMapping(series);
    assert forall i :: 0 <= i < |series| ==> series[i] in Elements(series);
    (Encode(series, mapping), mapping)
  }

  /** The mapping numbers the sorted distinct values in order. */
  lemma LabelMappingNumbersSortedValues(series: seq<string>)
    ensures NumbersInOrder(LabelMapping(series), SortedValues(series))
  {
    var values := SortedValues(series);
    StrictlySortedDistinct(values);
    forall i | 0 <= i < |values| ensures LabelMapping(series)[values[i]] == i {
      var k := IndexOf(values, values[i]);
      assert values[k] == values[i];
    }
  }

  /** The k distinct values receive exactly the codes 0..k-1. */
  lemma LabelCodesAreRange(series: seq<string>)
    ensures var m := LabelMapping(series); var k := |Elements(series)|;
      && m.Keys == Elements(series)
      && (forall v :: v in m ==> 0 <= m[v] < k)
      && (forall c :: 0 <= c < k ==> c in m.Values)
  {
    var values := SortedValues(series);
    var m := LabelMapping(series);
    StrictlySortedDistinct(values);
    DistinctCardinality(values);
    LabelMappingNumbersSortedValues(series);
    forall c | 0 <= c < |Elements(series)| ensures c in m.Values {
      assert values[c] in m && m[values[c]] == c;
    }
  }

  /** The codes follow the string order: a sorts before b exactly when
      its code is smaller; in particular the encoding is injective. */
  lemma LabelMappingOrderPreserving(series: seq<string>, a: string, b: string)
    requires a in LabelMapping(series) && b in LabelMapping(series)
    ensures Less(a, b) <==> LabelMapping(series)[a] < LabelMapping(series)[b]
    ensures a != b ==> LabelMapping(series)[a] != LabelMapping(series)[b]
  {
    var values := SortedValues(series);
    var m := LabelMapping(series);
    var i: nat := IndexOf(values, a);
    var j: nat := IndexOf(values, b);
    assert m[a] == i;
    assert m[b] == j;
    if i < j {
      assert Less(a, b);
    } else if j < i {
      assert Less(b, a);
      LessAsymmetric(b, a);
    } else {
      LessIrreflexive(a);
    }
  }

  /** Labels a series whose distinct values are exactly a sorted list:
      the mapping is that list's numbering. */
  lemma LabelMappingOfSortedNames(series: seq<string>, names: seq<string>)
    requires StrictlySorted(names) && Elements(series) == Elements(names)
    ensures NumbersInOrder(LabelMapping(series), names)
  {
    SortedUnique(SortedValues(series), names);
    LabelMappingNumbersSortedValues(series);
  }

  /** The inverse mapping, from code back to value. */
  function InverseMapping(series: seq<string>): map<int, string> {
    var values := SortedValues(series);
    map i | 0 <= i < |values| :: values[i]
  }

  /** Decoding the codes through the inverse mapping gives the series back. */
  lemma LabelEncodeRoundTrip(series: seq<string>)
    ensures var (codes, mapping) := LabelEncodeColumn(series); var inverse := InverseMapping(series);
      && |codes| == |series|
      && (forall v :: v in mapping ==> mapping[v] in inverse && inverse[mapping[v]] == v)
      && (forall i :: 0 <= i < |codes| ==> codes[i] in inverse && inverse[codes[i]] == series[i])
  {
    var values := SortedValues(series);
    var (codes, mapping) := LabelEncodeColumn(series);
    var inverse := InverseMapping(series);
    forall v | v in mapping ensures mapping[v] in inverse && inverse[mapping[v]] == v {
      var k := IndexOf(values, v);
    }
    forall i | 0 <= i < |codes| ensures codes[i] in inverse && inverse[codes[i]] == series[i] {
      assert series[i] in mapping;
    }
  }

  // ---------------------------------------------------------------------
  // Null filling

  const NumericCols: seq<string> := [
    "applicant_age", "financial_proof_usd", "num_previous_visits", "processing_time_days", "documents_complete"]
  const CategoricalCols: seq<string> := ["education_level", "occupation"]

  /** `col.fillna(v)`: every missing cell becomes v, the others stay. */
  function FillNa(col: seq<Cell>, v: Cell): (r: seq<Cell>)
    ensures |r| == |col|
    ensures forall i :: 0 <= i < |col| && col[i] != Null ==> r[i] == col[i]
    ensures forall i :: 0 <= i < |col| && col[i] == Null ==> r[i] == v
    ensures v != Null ==> !HasNull(r)
  {
    seq(|col|, i requires 0 <= i < |col| => if col[i] == Null then v else col[i])
  }

  /** The listed columns that hold a null, each filled with the statistic
      of its own column when it has one; every other column as it was. */
  function FillListed(cols: Columns, names: seq<string>, stat: seq<Cell> -> Option<Cell>): Columns {
    map c | c in cols :: FillOne(cols[c], c in names, stat)
  }

  /** A column after its turn: filled when it is listed, holds a null and
      has a statistic. */
  function FillOne(col: seq<Cell>, listed: bool, stat: seq<Cell> -> Option<Cell>): seq<Cell> {
    if listed && HasNull(col) && stat(col).Some? then FillNa(col, stat(col).value) else col
  }

  /** Every listed column that is present and holds a null has a statistic. */
  predicate StatsExist(cols: Columns, names: seq<string>, stat: seq<Cell> -> Option<Cell>) {
    forall c :: c in names && c in cols && HasNull(cols[c]) ==> stat(cols[c]).Some?
  }

  /** True iff every cell of the column is missing. */
  predicate AllNull(col: seq<Cell>) {
    forall x :: x in col ==> x == Null
  }

  /** `col.median()` always gives a value (NaN for an all-missing column,
      which the median parameter may return as Null). */
  function MedianStat(median: seq<Cell> -> Cell): seq<Cell> -> Option<Cell> {
    col => Some(median(col))
  }

  /** `col.mode()[0]`: the mode of an all-missing column is empty, and
      indexing it raises. */
  function ModeStat(mode: seq<Cell> -> Cell): seq<Cell> -> Option<Cell> {
    col => if AllNull(col) then None else Some(mode(col))
  }

  /** `handle_missing_values` returns a frame unless a categorical column
      that is present holds nothing but missing cells (at least one). */
  predicate CleaningSucceeds(cols: Columns) {
    forall c :: c in CategoricalCols && c in cols ==> !(HasNull(cols[c]) && AllNull(cols[c]))
  }

  /** The frame `handle_missing_values` returns: numeric columns filled
      with their median, then categorical columns with their mode. */
  function Cleaned(cols: Columns, median: seq<Cell> -> Cell, mode: seq<Cell> -> Cell): Columns {
    FillListed(FillListed(cols, NumericCols, MedianStat(median)), CategoricalCols, ModeStat(mode))
  }

  lemma FillListsDistinct()
    ensures Distinct(NumericCols) && Distinct(CategoricalCols)
    ensures forall c :: c in CategoricalCols ==> c !in NumericCols
  {
    assert NumericCols[0][0] == 'a' && NumericCols[1][0] == 'f' && NumericCols[2][0] == 'n';
    assert NumericCols[3][0] == 'p' && NumericCols[4][0] == 'd';
    assert CategoricalCols[0][0] == 'e' && CategoricalCols[1][0] == 'o';
  }

  /** One turn of a filling loop. */
  lemma FillListedStep(cols: Columns, names: seq<string>, k: nat, stat: seq<Cell> -> Option<Cell>)
    requires Distinct(names) && k < |names|
    ensures var col := names[k]; var cur := FillListed(cols, names[..k], stat);
      && (col in cols <==> col in cur) && (col in cols ==> cur[col] == cols[col])
      && FillListed(cols, names[..k + 1], stat) == (if col in cur then cur[col := FillOne(cur[col], true, stat)] else cur)
  {
    var col := names[k];
    assert col !in names[..k];
    assert names[..k + 1] == names[..k] + [col];
  }

  /** One turn of a filling loop needs one more statistic. */
  lemma StatsExistStep(cols: Columns, names: seq<string>, k: nat, stat: seq<Cell> -> Option<Cell>)
    requires k < |names|
    ensures var col := names[k];
      StatsExist(cols, names[..k + 1], stat) <==>
        StatsExist(cols, names[..k], stat) && (col in cols && HasNull(cols[col]) ==> stat(cols[col]).Some?)
  {
    assert names[..k + 1] == names[..k] + [names[k]];
  }

  /** One of the filling loops: each listed column that is present and
      holds a null is filled with its own statistic; the loop stops with
      false at the first such column that has no statistic. */
  method FillColumns(clean: DataFrame, names: seq<string>, stat: seq<Cell> -> Option<Cell>) returns (ok: bool)
    requires clean.Valid() && Distinct(names)
    modifies clean
    ensures clean.Valid() && clean.rows == old(clean.rows)
    ensures ok <==> StatsExist(old(clean.columns), names, stat)
    ensures ok ==> clean.columns == FillListed(old(clean.columns), names, stat)
  {
    ghost var start := clean.columns;
    for k := 0 to |names|
      invariant clean.Valid() && clean.rows == old(clean.rows)
      invariant clean.columns == FillListed(start, names[..k], stat)
      invariant StatsExist(start, names[..k], stat)
    {
      FillListedStep(start, names, k, stat);
      StatsExistStep(start, names, k, stat);
      var col := names[k];
      if col in clean.columns && HasNull(clean.columns[col]) {
        var statVal := stat(clean.columns[col]);
        if statVal.None? {
          assert names[k] in names;
          return false;
        }
        clean.SetColumn(col, FillNa(clean.columns[col], statVal.value));
      }
    }
    assert names[..|names|] == names;
    ok := true;
  }

  /** `handle_missing_values`: works on a copy, so the input frame is not
      changed (the method has no modifies clause). It fails, returning no
      frame, where `mode()[0]` raises. */
  method HandleMissingValues(df: DataFrame, median: seq<Cell> -> Cell, mode: seq<Cell> -> Cell)
    returns (clean: DataFrame, ok: bool)
    requires df.Valid()
    ensures fresh(clean) && clean.Valid() && clean.rows == df.rows
    ensures ok <==> CleaningSucceeds(df.columns)
    ensures ok ==> clean.columns == Cleaned(df.columns, median, mode)
  {
    FillListsDistinct();
    clean := df.Copy();
    var numericOk := FillColumns(clean, NumericCols, MedianStat(median));
    assert numericOk;
    ghost var mid := clean.columns;
    assert forall c :: c in CategoricalCols ==> (c in mid <==> c in df.columns) && (c in mid ==> mid[c] == df.columns[c]);
    ok := FillColumns(clean, CategoricalCols, ModeStat(mode));
  }

  /** A present categorical column with rows, all of them missing, makes
      `handle_missing_values` fail; a frame whose categorical columns have
      no missing cell never does. */
  lemma AllMissingCategoricalFails(cols: Columns, c: string)
    requires c in CategoricalCols && c in cols
    ensures |cols[c]| > 0 && AllNull(cols[c]) ==> !CleaningSucceeds(cols)
    ensures (forall d :: d in CategoricalCols && d in cols ==> !HasNull(cols[d])) ==> CleaningSucceeds(cols)
  {
    if |cols[c]| > 0 && AllNull(cols[c]) {
      assert cols[c][0] in cols[c];
    }
  }

  /** After cleaning, a listed column holds no null whenever the statistic
      of that column is not itself null. */
  lemma CleanedListedColumnsHaveNoNulls(cols: Columns, median: seq<Cell> -> Cell, mode: seq<Cell> -> Cell, c: string)
    requires c in cols
    requires c in NumericCols ==> median(cols[c]) != Null
    requires c in CategoricalCols ==> mode(cols[c]) != Null
    requires CleaningSucceeds(cols)
    ensures c in NumericCols || c in CategoricalCols ==> !HasNull(Cleaned(cols, median, mode)[c])
  {
    var mid := FillListed(cols, NumericCols, MedianStat(median));
    assert c in CategoricalCols ==> c !in NumericCols;
    assert c in CategoricalCols ==> mid[c] == cols[c];
  }

  /** Cleaning keeps every column and row, never changes a cell that was
      present, and leaves unlisted columns and columns without nulls as
      they were. */
  lemma CleanedChangesOnlyNulls(cols: Columns, rows: nat, median: seq<Cell> -> Cell, mode: seq<Cell> -> Cell)
    requires Rectangular(cols, rows)
    ensures var r := Cleaned(cols, median, mode);
      && r.Keys == cols.Keys && Rectangular(r, rows)
      && (forall c, i :: c in cols && 0 <= i < rows && cols[c][i] != Null ==> r[c][i] == cols[c][i])
      && (forall c :: c in cols && (!HasNull(cols[c]) || (c !in NumericCols && c !in CategoricalCols)) ==> r[c] == cols[c])
  {
    var mid := FillListed(cols, NumericCols, MedianStat(median));
    var r := Cleaned(cols, median, mode);
    assert forall c :: c in cols && c in CategoricalCols ==> c !in NumericCols && mid[c] == cols[c];
  }

  // ---------------------------------------------------------------------
  // Categorical encoding

  type Encodings = map<string, map<string, int>>

  /** Education levels in their natural order. */
  const EducationLevels: seq<string> := ["10th Pass", "12th Pass", "Graduate", "Post Graduate", "Doctorate"]
  const EducationOrder: map<string, int> :=
    map["10th Pass" := 0, "12th Pass" := 1, "Graduate" := 2, "Post Graduate" := 3, "Doctorate" := 4]

  /** The ordinal education codes number the levels from lowest to highest. */
  lemma EducationOrderInOrder()
    ensures NumbersInOrder(EducationOrder, EducationLevels)
  {
    assert EducationLevels[0] == "10th Pass" && EducationLevels[1] == "12th Pass";
    assert EducationLevels[2] == "Graduate" && EducationLevels[3] == "Post Graduate";
    assert EducationLevels[4] == "Doctorate";
    assert Elements(EducationLevels) == EducationOrder.Keys;
  }

  /** `col.map(table)`: the code of a listed string, NaN for anything else. */
  function MapCells(col: seq<Cell>, table: map<string, int>): (r: seq<Cell>)
    ensures |r| == |col|
    ensures forall i :: 0 <= i < |col| ==> (r[i] != Null <==> col[i].Str? && col[i].s in table)
    ensures forall i :: 0 <= i < |col| && col[i].Str? && col[i].s in table ==> r[i] == Num(table[col[i].s] as real)
  {
    seq(|col|, i requires 0 <= i < |col| => if col[i].Str? && col[i].s in table then Num(table[col[i].s] as real) else Null)
  }

  /** `str(cell)`, as `astype(str)` writes it; a number's text is Python's
      float formatting, given as numText. */
  function CellText(c: Cell, numText: real -> string): string {
    match c
    case Null => "nan"
    case Num(x) => numText(x)
    case Str(s) => s
    case Flag(b) => if b then "True" else "False"
  }

  /** `col.astype(str)`. */
  function Texts(col: seq<Cell>, numText: real -> string): (t: seq<string>)
    ensures |t| == |col| && forall i :: 0 <= i < |col| ==> t[i] == CellText(col[i], numText)
  {
    seq(|col|, i requires 0 <= i < |col| => CellText(col[i], numText))
  }

  /** The label-encoded column: every row's code in the sorted mapping of
      the column's texts. */
  function LabelEncodedCells(col: seq<Cell>, numText: real -> string): (r: seq<Cell>)
    ensures var m := LabelMapping(Texts(col, numText));
      && |r| == |col|
      && forall i :: 0 <= i < |col| ==> CellText(col[i], numText) in m && r[i] == Num(m[CellText(col[i], numText)] as real)
  {
    var (codes, _) := LabelEncodeColumn(Texts(col, numText));
    seq(|codes|, i requires 0 <= i < |codes| => Num(codes[i] as real))
  }

  /** The columns label-encoded after the education level. */
  const LabelCols: seq<string> :=
    ["visa_type", "gender", "nationality", "occupation", "processing_center", "visit_purpose", "previous_visa"]

  function EncodedName(col: string): string {
    col + "_encoded"
  }

  /** The encoded columns added for the listed columns present in cols. */
  function EncodedNames(names: seq<string>, cols: Columns): set<string> {
    set n | n in names && n in cols :: EncodedName(n)
  }

  /** The listed columns present in cols. */
  function Present(names: seq<string>, cols: Columns): set<string> {
    set n | n in names && n in cols
  }

  lemma PresentSnoc(init: seq<string>, last: string, cols: Columns)
    ensures Present(init + [last], cols) == Present(init, cols) + (if last in cols then {last} else {})
    ensures EncodedNames(init + [last], cols) == EncodedNames(init, cols) + (if last in cols then {EncodedName(last)} else {})
  {
    assert forall n :: n in init + [last] <==> n in init || n == last;
  }

  /** No listed column is the encoded column of another. */
  predicate NoEncodedNames(names: seq<string>) {
    forall a, b :: a in names && b in names ==> EncodedName(a) != b
  }

  lemma LabelColsWellFormed()
    ensures Distinct(LabelCols) && NoEncodedNames(LabelCols)
    ensures "education_level" !in LabelCols && "education_encoded" !in LabelCols
  {
    forall a, b | a in LabelCols && b in LabelCols ensures EncodedName(a) != b {
      assert EncodedName(a)[|EncodedName(a)| - 1] == 'd';
    }
    assert LabelCols[0][..2] == "vi" && LabelCols[1][..2] == "ge" && LabelCols[2][..2] == "na";
    assert LabelCols[3][..2] == "oc" && LabelCols[4][..2] == "pr" && LabelCols[5][..2] == "vi";
    assert LabelCols[6][..2] == "pr";
    assert LabelCols[0][4] == '_' && LabelCols[5][4] == 't';
    assert LabelCols[4][2] == 'o' && LabelCols[6][2] == 'e';
  }

  /** The label encoding of a column, and its mapping, for a given text of floats. */
  function EncoderOf(numText: real -> string): seq<Cell> -> seq<Cell> {
    col => LabelEncodedCells(col, numText)
  }

  function MappingOf(numText: real -> string): seq<Cell> -> map<string, int> {
    col => LabelMapping(Texts(col, numText))
  }

  /** One turn of the label-encoding loop: a present column gets its
      encoded column and its recorded mapping. */
  function LabelStep(state: (Columns, Encodings), col: string,
                     encode: seq<Cell> -> seq<Cell>, mapping: seq<Cell> -> map<string, int>): (Columns, Encodings) {
    var (cols, enc) := state;
    if col in cols then (cols[EncodedName(col) := encode(cols[col])], enc[col := mapping(cols[col])])
    else state
  }

  /** The label-encoding loop over the listed columns, in order. */
  function LabelSteps(state: (Columns, Encodings), names: seq<string>,
                      encode: seq<Cell> -> seq<Cell>, mapping: seq<Cell> -> map<string, int>): (Columns, Encodings)
    decreases |names|
  {
    if names == [] then state
    else LabelStep(LabelSteps(state, names[..|names| - 1], encode, mapping), names[|names| - 1], encode, mapping)
  }

  lemma EncodedNameInjective(a: string, b: string)
    ensures EncodedName(a) == EncodedName(b) ==> a == b
  {
    if EncodedName(a) == EncodedName(b) {
      assert |a| == |b|;
      assert EncodedName(a)[..|a|] == a;
      assert EncodedName(b)[..|b|] == b;
    }
  }

  lemma PrefixWellFormed(names: seq<string>)
    requires names != [] && Distinct(names) && NoEncodedNames(names)
    ensures var init := names[..|names| - 1];
      && Distinct(init) && NoEncodedNames(init) && names[|names| - 1] !in init
      && names == init + [names[|names| - 1]]
      && forall cols: Columns :: names[|names| - 1] !in EncodedNames(init, cols)
  {
    var init := names[..|names| - 1];
    var last := names[|names| - 1];
    assert forall n :: n in init ==> n in names;
    forall cols: Columns ensures last !in EncodedNames(init, cols) {
      forall n | n in init ensures EncodedName(n) != last {
        assert n in names && last in names;
      }
    }
  }

  /** One turn adds the encoded column of a present column and nothing else. */
  lemma LabelStepAdds(state: (Columns, Encodings), col: string,
      encode: seq<Cell> -> seq<Cell>, mapping: seq<Cell> -> map<string, int>)
    ensures var c := LabelStep(state, col, encode, mapping).0;
      && AddsOnly(state.0, c, if col in state.0 then {EncodedName(col)} else {})
      && (col in state.0 ==> c[EncodedName(col)] == encode(state.0[col]))
  {
  }

  /** The loop adds exactly the encoded columns of the present listed
      columns; no other column changes. */
  lemma {:induction false} LabelStepsAdds(cols: Columns, enc: Encodings, names: seq<string>,
      encode: seq<Cell> -> seq<Cell>, mapping: seq<Cell> -> map<string, int>)
    requires Distinct(names) && NoEncodedNames(names)
    ensures AddsOnly(cols, LabelSteps((cols, enc), names, encode, mapping).0, EncodedNames(names, cols))
  {
    if names != [] {
      var init := names[..|names| - 1];
      var last := names[|names| - 1];
      PrefixWellFormed(names);
      LabelStepsAdds(cols, enc, init, encode, mapping);
      var st0 := LabelSteps((cols, enc), init, encode, mapping);
      var c := LabelStep(st0, last, encode, mapping).0;
      LabelStepAdds(st0, last, encode, mapping);
      assert last in st0.0 <==> last in cols;
      PresentSnoc(init, last, cols);
      AddsOnlyTransitive(cols, st0.0, c, EncodedNames(init, cols), if last in cols then {EncodedName(last)} else {});
    }
  }

  /** Each encoded column the loop adds is the label encoding of its
      source column. */
  lemma {:induction false} LabelStepsCodes(cols: Columns, enc: Encodings, names: seq<string>,
      encode: seq<Cell> -> seq<Cell>, mapping: seq<Cell> -> map<string, int>)
    requires Distinct(names) && NoEncodedNames(names)
    ensures var c := LabelSteps((cols, enc), names, encode, mapping).0;
      forall n :: n in names && n in cols ==> EncodedName(n) in c && c[EncodedName(n)] == encode(cols[n])
  {
    if names != [] {
      var init := names[..|names| - 1];
      var last := names[|names| - 1];
      PrefixWellFormed(names);
      LabelStepsCodes(cols, enc, init, encode, mapping);
      LabelStepsAdds(cols, enc, init, encode, mapping);
      var st0 := LabelSteps((cols, enc), init, encode, mapping);
      var c := LabelStep(st0, last, encode, mapping).0;
      LabelStepAdds(st0, last, encode, mapping);
      LabelStepsAdds(cols, enc, names, encode, mapping);
      if last in cols {
        assert st0.0[last] == cols[last];
        forall n | n in init && n in cols ensures c[EncodedName(n)] == encode(cols[n]) {
          EncodedNameInjective(n, last);
        }
      }
    }
  }

  /** One turn records the mapping of a present column and keeps the others. */
  lemma LabelStepRecords(state: (Columns, Encodings), col: string,
      encode: seq<Cell> -> seq<Cell>, mapping: seq<Cell> -> map<string, int>)
    ensures var e := LabelStep(state, col, encode, mapping).1;
      && e.Keys == state.1.Keys + (if col in state.0 then {col} else {})
      && (col in state.0 ==> e[col] == mapping(state.0[col]))
      && (forall k :: k in state.1 && k != col ==> e[k] == state.1[k])
  {
  }

  /** The loop records a mapping for every present listed column, on top
      of those already recorded. */
  lemma {:induction false} LabelStepsRecordKeys(cols: Columns, enc: Encodings, names: seq<string>,
      encode: seq<Cell> -> seq<Cell>, mapping: seq<Cell> -> map<string, int>)
    requires Distinct(names) && NoEncodedNames(names)
    ensures LabelSteps((cols, enc), names, encode, mapping).1.Keys == enc.Keys + Present(names, cols)
  {
    if names != [] {
      var init := names[..|names| - 1];
      var last := names[|names| - 1];
      PrefixWellFormed(names);
      LabelStepsRecordKeys(cols, enc, init, encode, mapping);
      LabelStepsAdds(cols, enc, init, encode, mapping);
      var st0 := LabelSteps((cols, enc), init, encode, mapping);
      LabelStepRecords(st0, last, encode, mapping);
      assert last in st0.0 <==> last in cols;
      PresentSnoc(init, last, cols);
    }
  }

  /** The loop records the mapping of every present listed column and
      keeps the mappings already recorded for other columns. */
  lemma {:induction false} LabelStepsEncodings(cols: Columns, enc: Encodings, names: seq<string>,
      encode: seq<Cell> -> seq<Cell>, mapping: seq<Cell> -> map<string, int>)
    requires Distinct(names) && NoEncodedNames(names)
    ensures var e := LabelSteps((cols, enc), names, encode, mapping).1;
      && e.Keys == enc.Keys + Present(names, cols)
      && (forall n :: n in names && n in cols ==> e[n] == mapping(cols[n]))
      && (forall k :: k in enc && k !in names ==> e[k] == enc[k])
  {
    LabelStepsRecordKeys(cols, enc, names, encode, mapping);
    if names != [] {
      var init := names[..|names| - 1];
      var last := names[|names| - 1];
      PrefixWellFormed(names);
      LabelStepsEncodings(cols, enc, init, encode, mapping);
      LabelStepsAdds(cols, enc, init, encode, mapping);
      var st0 := LabelSteps((cols, enc), init, encode, mapping);
      var e := LabelStep(st0, last, encode, mapping).1;
      LabelStepRecords(st0, last, encode, mapping);
      assert last in cols ==> last in st0.0 && st0.0[last] == cols[last];
      forall n | n in names && n in cols ensures e[n] == mapping(cols[n]) {
        if n != last {
          assert n in init;
        }
      }
      forall k | k in enc && k !in names ensures e[k] == enc[k] {
        assert k !in init && k != last;
      }
    }
  }

  /** The ordinal education step. */
  function EducationStep(cols: Columns): (Columns, Encodings) {
    if "education_level" in cols then
      (cols["education_encoded" := MapCells(cols["education_level"], EducationOrder)], map["education_level" := EducationOrder])
    else (cols, map[])
  }

  /** The label `get_dummies` gives a cell: none for a missing value. */
  function Category(c: Cell, numText: real -> string): Option<string> {
    if c == Null then None else Some(CellText(c, numText))
  }

  const DummyPrefix: string := "visa_type_"

  /** The dummy column names: one per category present. */
  function DummyNames(col: seq<Cell>, numText: real -> string): set<string> {
    set i | 0 <= i < |col| && Category(col[i], numText).Some? :: DummyPrefix + Category(col[i], numText).value
  }

  /** `pd.get_dummies(col, prefix='visa_type')`: one boolean column per
      category, true on the rows of that category. */
  function Dummies(col: seq<Cell>, numText: real -> string): Columns {
    map name | name in DummyNames(col, numText) ::
      seq(|col|, i requires 0 <= i < |col| => Flag(Category(col[i], numText) == Some(name[|DummyPrefix|..])))
  }

  /** Every dummy column has one cell per row, and on each row exactly the
      dummy of that row's category is true (none for a missing value). */
  lemma DummiesOneHot(col: seq<Cell>, numText: real -> string, i: nat)
    requires i < |col|
    ensures var d := Dummies(col, numText);
      && (forall name :: name in d ==> |d[name]| == |col|)
      && (Category(col[i], numText).Some? ==> DummyPrefix + Category(col[i], numText).value in d)
      && (forall name :: name in d ==>
            (d[name][i] == Flag(true) <==> Category(col[i], numText).Some? && name == DummyPrefix + Category(col[i], numText).value))
  {
    var d := Dummies(col, numText);
    forall name | name in d
      ensures d[name][i] == Flag(true) <==> Category(col[i], numText).Some? && name == DummyPrefix + Category(col[i], numText).value
    {
      var j :| 0 <= j < |col| && Category(col[j], numText).Some? && name == DummyPrefix + Category(col[j], numText).value;
      assert name[..|DummyPrefix|] == DummyPrefix;
      if Category(col[i], numText).Some? {
        var v := Category(col[i], numText).value;
        assert (DummyPrefix + v)[|DummyPrefix|..] == v;
        assert name == DummyPrefix + name[|DummyPrefix|..];
      }
    }
  }

  /** The one-hot step, on the visa type column of the encoded frame. */
  function OneHot(cols: Columns, numText: real -> string): Columns {
    if "visa_type" in cols then cols + Dummies(cols["visa_type"], numText) else cols
  }

  /** The frame and encodings after the ordinal and label-encoding steps. */
  function Labelled(cols: Columns, numText: real -> string): (Columns, Encodings) {
    LabelSteps(EducationStep(cols), LabelCols, EncoderOf(numText), MappingOf(numText))
  }

  /** What `encode_categorical_variables` returns. */
  function Encoded(cols: Columns, numText: real -> string): (Columns, Encodings) {
    var labelled := Labelled(cols, numText);
    (OneHot(labelled.0, numText), labelled.1)
  }

  /** The dummy columns of the visa type column, if there is one. */
  function VisaDummies(cols: Columns, numText: real -> string): Columns {
    if "visa_type" in cols then Dummies(cols["visa_type"], numText) else map[]
  }

  /** The column the ordinal step adds, if any. */
  function EducationAdded(cols: Columns): set<string> {
    if "education_level" in cols then {"education_encoded"} else {}
  }

  /** The names of the columns the encoding adds. */
  function AddedColumns(cols: Columns, numText: real -> string): set<string> {
    EducationAdded(cols) + EncodedNames(LabelCols, cols) + VisaDummies(cols, numText).Keys
  }

  lemma EducationEncodedNameIsNew(cols: Columns, numText: real -> string)
    ensures "education_encoded" !in EncodedNames(LabelCols, cols)
    ensures "education_encoded" !in VisaDummies(cols, numText)
  {
    LabelColsWellFormed();
    forall n | n in LabelCols ensures EncodedName(n) != "education_encoded" {
      assert EncodedName("education") == "education_encoded";
      EncodedNameInjective(n, "education");
    }
    if "visa_type" in cols {
      forall name | name in VisaDummies(cols, numText) ensures name != "education_encoded" {
        assert name[..|DummyPrefix|] == DummyPrefix;
        assert "education_encoded"[..|DummyPrefix|] != DummyPrefix by {
          assert "education_encoded"[0] == 'e';
        }
      }
    }
  }

  /** The ordinal step leaves every listed column and the encoded names
      of the listed columns as they were, when none of them is
      `education_encoded`. */
  lemma EducationStepKeeps(cols: Columns, names: seq<string>)
    requires "education_encoded" !in names
    ensures var c1 := EducationStep(cols).0;
      && AddsOnly(cols, c1, EducationAdded(cols))
      && EncodedNames(names, c1) == EncodedNames(names, cols)
      && Present(names, c1) == Present(names, cols)
      && (forall n :: n in names ==> (n in c1 <==> n in cols) && (n in cols ==> c1[n] == cols[n]))
  {
  }

  /** The label-encoding loop, run after the ordinal step, adds the encoded
      columns of the present listed columns of the input, with their codes. */
  lemma LabelStepsAfterEducation(cols: Columns, names: seq<string>,
      encode: seq<Cell> -> seq<Cell>, mapping: seq<Cell> -> map<string, int>)
    requires Distinct(names) && NoEncodedNames(names) && "education_encoded" !in names
    ensures var st := EducationStep(cols); var c := LabelSteps(st, names, encode, mapping).0;
      && AddsOnly(cols, st.0, EducationAdded(cols))
      && AddsOnly(st.0, c, EncodedNames(names, cols))
      && (forall n :: n in names && n in cols ==> c[EncodedName(n)] == encode(cols[n]))
  {
    var st := EducationStep(cols);
    EducationStepKeeps(cols, names);
    LabelStepsAdds(st.0, st.1, names, encode, mapping);
    LabelStepsCodes(st.0, st.1, names, encode, mapping);
  }

  /** Before the one-hot step only the ordinal column and the encoded
      columns have been added. */
  lemma LabelledColumns(cols: Columns, numText: real -> string)
    ensures AddsOnly(cols, Labelled(cols, numText).0, EducationAdded(cols) + EncodedNames(LabelCols, cols))
  {
    LabelColsWellFormed();
    LabelStepsAfterEducation(cols, LabelCols, EncoderOf(numText), MappingOf(numText));
    AddsOnlyTransitive(cols, EducationStep(cols).0, Labelled(cols, numText).0,
      EducationAdded(cols), EncodedNames(LabelCols, cols));
  }

  /** The one-hot step appends the dummies of the input's visa type column,
      which the earlier steps leave untouched. */
  lemma EncodedIsLabelledPlusDummies(cols: Columns, numText: real -> string)
    ensures Encoded(cols, numText).0 == Labelled(cols, numText).0 + VisaDummies(cols, numText)
  {
    LabelledColumns(cols, numText);
    VisaTypeNotAdded(cols);
    OneHotAfter(cols, Labelled(cols, numText).0, EducationAdded(cols) + EncodedNames(LabelCols, cols), numText);
  }

  /** No step before the one-hot step adds a column named `visa_type`. */
  lemma VisaTypeNotAdded(cols: Columns)
    ensures "visa_type" !in EducationAdded(cols) + EncodedNames(LabelCols, cols)
  {
    LabelColsWellFormed();
    assert "visa_type" in LabelCols;
  }

  /** The one-hot step on a frame that kept the input's visa type column. */
  lemma OneHotAfter(cols: Columns, c: Columns, added: set<string>, numText: real -> string)
    requires AddsOnly(cols, c, added) && "visa_type" !in added
    ensures OneHot(c, numText) == c + VisaDummies(cols, numText)
  {
  }

  /** The encoded frame is the input plus the added columns: the ordinal
      education column, the label-encoded columns and the visa type
      dummies; no input column changes unless it has an added name. */
  lemma EncodedColumns(cols: Columns, numText: real -> string)
    ensures var r := Encoded(cols, numText).0; var dummies := VisaDummies(cols, numText);
      && AddsOnly(cols, r, AddedColumns(cols, numText))
      && (forall d :: d in dummies ==> r[d] == dummies[d])
  {
    var c := Labelled(cols, numText).0;
    var dummies := VisaDummies(cols, numText);
    LabelledColumns(cols, numText);
    EncodedIsLabelledPlusDummies(cols, numText);
    ConcatAddsOnly(c, dummies);
    AddsOnlyTransitive(cols, c, c + dummies, EducationAdded(cols) + EncodedNames(LabelCols, cols), dummies.Keys);
  }

  /** The education column's ordinal codes survive in the encoded frame. */
  lemma EducationEncodedColumn(cols: Columns, numText: real -> string)
    ensures var r := Encoded(cols, numText).0;
      "education_level" in cols ==>
        "education_encoded" in r && r["education_encoded"] == MapCells(cols["education_level"], EducationOrder)
  {
    LabelColsWellFormed();
    LabelStepsAfterEducation(cols, LabelCols, EncoderOf(numText), MappingOf(numText));
    EducationEncodedNameIsNew(cols, numText);
    EncodedIsLabelledPlusDummies(cols, numText);
  }

  /** Every present label column's codes are in the encoded frame, unless a
      dummy of the same name overwrote them. */
  lemma LabelEncodedColumns(cols: Columns, numText: real -> string)
    ensures var r := Encoded(cols, numText).0;
      forall n :: n in LabelCols && n in cols && EncodedName(n) !in VisaDummies(cols, numText) ==>
        EncodedName(n) in r && r[EncodedName(n)] == LabelEncodedCells(cols[n], numText)
  {
    LabelColsWellFormed();
    LabelStepsAfterEducation(cols, LabelCols, EncoderOf(numText), MappingOf(numText));
    EncodedIsLabelledPlusDummies(cols, numText);
  }

  /** The returned encodings: the ordinal table for the education level and
      the sorted label mapping of every label-encoded column present. */
  lemma EncodedMappings(cols: Columns, numText: real -> string)
    ensures var e := Encoded(cols, numText).1;
      && e.Keys == (if "education_level" in cols then {"education_level"} else {}) + Present(LabelCols, cols)
      && ("education_level" in cols ==> e["education_level"] == EducationOrder)
      && (forall n :: n in LabelCols && n in cols ==> e[n] == LabelMapping(Texts(cols[n], numText)))
  {
    LabelColsWellFormed();
    MappingsAfterEducation(cols, LabelCols, EncoderOf(numText), MappingOf(numText));
  }

  /** The mappings recorded by the ordinal step and the label-encoding loop. */
  lemma MappingsAfterEducation(cols: Columns, names: seq<string>,
      encode: seq<Cell> -> seq<Cell>, mapping: seq<Cell> -> map<string, int>)
    requires Distinct(names) && NoEncodedNames(names)
    requires "education_encoded" !in names && "education_level" !in names
    ensures var e := LabelSteps(EducationStep(cols), names, encode, mapping).1;
      && e.Keys == (if "education_level" in cols then {"education_level"} else {}) + Present(names, cols)
      && ("education_level" in cols ==> e["education_level"] == EducationOrder)
      && (forall n :: n in names && n in cols ==> e[n] == mapping(cols[n]))
  {
    var (c1, e1) := EducationStep(cols);
    EducationStepKeeps(cols, names);
    LabelStepsEncodings(c1, e1, names, encode, mapping);
  }

  /** The label-encoding loop of `encode_categorical_variables`: each
      listed column present gets its `_encoded` column and its mapping. */
  method LabelEncodeColumns(encoded: DataFrame, encodings: Encodings, names: seq<string>, numText: real -> string)
    returns (result: Encodings)
    requires encoded.Valid()
    modifies encoded
    ensures encoded.Valid() && encoded.rows == old(encoded.rows)
    ensures (encoded.columns, result) == LabelSteps((old(encoded.columns), encodings), names, EncoderOf(numText), MappingOf(numText))
  {
    ghost var start := (encoded.columns, encodings);
    result := encodings;
    for k := 0 to |names|
      invariant encoded.Valid() && encoded.rows == old(encoded.rows)
      invariant (encoded.columns, result) == LabelSteps(start, names[..k], EncoderOf(numText), MappingOf(numText))
    {
      assert names[..k + 1][..k] == names[..k];
      var col := names[k];
      if col in encoded.columns {
        var (codes, mapping) := LabelEncodeColumn(Texts(encoded.columns[col], numText));
        encoded.SetColumn(col + "_encoded", seq(|codes|, i requires 0 <= i < |codes| => Num(codes[i] as real)));
        result := result[col := mapping];
      }
    }
    assert names[..|names|] == names;
  }

  /** `encode_categorical_variables`: encodes a copy; the input frame is
      not changed. */
  method EncodeCategoricalVariables(df: DataFrame, numText: real -> string)
    returns (encoded: DataFrame, encodings: Encodings)
    requires df.Valid()
    ensures fresh(encoded) && encoded.Valid() && encoded.rows == df.rows
    ensures (encoded.columns, encodings) == Encoded(df.columns, numText)
  {
    encoded := df.Copy();
    encodings := map[];
    if "education_level" in encoded.columns {
      encoded.SetColumn("education_encoded", MapCells(encoded.columns["education_level"], EducationOrder));
      encodings := encodings["education_level" := EducationOrder];
    }
    assert (encoded.columns, encodings) == EducationStep(df.columns);
    encodings := LabelEncodeColumns(encoded, encodings, LabelCols, numText);
    if "visa_type" in encoded.columns {
      var visaDummies := Dummies(encoded.columns["visa_type"], numText);
      encoded.Concat(visaDummies);
    }
  }

  // ---------------------------------------------------------------------
  // Target labels

  const StatusNames: seq<string> := ["Rejected", "Pending", "Approved"]
  const StatusMap: map<string, int> := map["Rejected" := 0, "Pending" := 1, "Approved" := 2]

  /** The status codes number Rejected, Pending, Approved in that order. */
  lemma StatusMapInOrder()
    ensures NumbersInOrder(StatusMap, StatusNames)
  {
    assert StatusNames[0] == "Rejected" && StatusNames[1] == "Pending" && StatusNames[2] == "Approved";
    assert Elements(StatusNames) == StatusMap.Keys;
  }

  /** Python's `int(x)` on a float: truncation toward zero. */
  function Truncate(x: real): (n: int)
    ensures 0.0 <= x ==> 0 <= n && n as real <= x < n as real + 1.0
    ensures x < 0.0 ==> n <= 0 && n as real - 1.0 < x <= n as real
  {
    if x >= 0.0 then x.Floor else -((-x).Floor)
  }

  /** `astype(int)` on one cell: none for a missing or text cell, on which
      the cast raises. */
  function CellToInt(c: Cell): Option<int> {
    match c
    case Num(x) => Some(Truncate(x))
    case Flag(b) => Some(if b then 1 else 0)
    case _ => None
  }

  predicate Castable(col: seq<Cell>) {
    forall i :: 0 <= i < |col| ==> CellToInt(col[i]).Some?
  }

  /** `process_target_labels`: the processing time cast to integers and the
      visa status encoded; a missing column or an uncastable cell is an
      error. After the cast every processing time is whole and lies less
      than a day from the input, toward zero; the status codes are 0, 1 or
      2 exactly on the rows with a known status. */
  function TargetLabels(cols: Columns): (r: Result<Columns, string>)
    ensures r.Ok? <==> "processing_time_days" in cols && Castable(cols["processing_time_days"]) && "visa_status" in cols
    ensures r.Ok? ==> r.value.Keys == cols.Keys + {"visa_status_encoded"}
    ensures r.Ok? ==> forall c :: c in cols && c != "processing_time_days" && c != "visa_status_encoded" ==> r.value[c] == cols[c]
    ensures r.Ok? ==>
      var days := cols["processing_time_days"]; var ints := r.value["processing_time_days"];
      && |ints| == |days|
      && forall i :: 0 <= i < |days| && days[i].Num? ==>
           var x := days[i].x;
           && ints[i].Num? && ints[i].x == ints[i].x.Floor as real
           && (0.0 <= x ==> 0.0 <= ints[i].x <= x < ints[i].x + 1.0)
           && (x < 0.0 ==> ints[i].x - 1.0 < x <= ints[i].x <= 0.0)
    ensures r.Ok? ==>
      var status := cols["visa_status"]; var codes := r.value["visa_status_encoded"];
      && |codes| == |status|
      && (forall i :: 0 <= i < |status| ==>
            (codes[i] != Null <==> status[i] in [Str("Rejected"), Str("Pending"), Str("Approved")]))
      && (forall i :: 0 <= i < |status| && codes[i] != Null ==> codes[i] in [Num(0.0), Num(1.0), Num(2.0)])
      && (forall i :: 0 <= i < |status| && status[i].Str? && status[i].s in StatusMap ==>
            codes[i] == Num(StatusMap[status[i].s] as real))
  {
    if "processing_time_days" !in cols then Err("processing_time_days")
    else
      var days := cols["processing_time_days"];
      if !Castable(days) then Err("cannot convert processing_time_days to int")
      else if "visa_status" !in cols then Err("visa_status")
      else
        var ints := seq(|days|, i requires 0 <= i < |days| => Num(CellToInt(days[i]).value as real));
        Ok(cols["processing_time_days" := ints]["visa_status_encoded" := MapCells(cols["visa_status"], StatusMap)])
  }
}
