/** A column-oriented model of the pandas data frames the training
    pipeline passes around: each column name maps to one cell per row. */
module Frames {

  /** One cell: missing (NaN/None), a number, a string or a boolean. */
  datatype Cell = Null | Num(x: real) | Str(s: string) | Flag(b: bool)

  type Columns = map<string, seq<Cell>>

  /** Every column has one cell per row. */
  predicate Rectangular(cols: Columns, rows: nat) {
    forall c :: c in cols ==> |cols[c]| == rows
  }

  /** True iff the column holds a missing cell. */
  predicate HasNull(col: seq<Cell>) {
    Null in col
  }

  /** `after` is `before` plus the named columns: no other column is added,
      removed or changed. */
  predicate AddsOnly(before: Columns, after: Columns, added: set<string>) {
    && after.Keys == before.Keys + added
    && forall c :: c in before && c !in added ==> after[c] == before[c]
  }

  /** Adding columns in two steps adds the union of both steps' columns. */
  lemma AddsOnlyTransitive(a: Columns, b: Columns, c: Columns, x: set<string>, y: set<string>)
    requires AddsOnly(a, b, x) && AddsOnly(b, c, y)
    ensures AddsOnly(a, c, x + y)
  {
  }

  /** Concatenating columns adds exactly their names. */
  lemma ConcatAddsOnly(a: Columns, b: Columns)
    ensures AddsOnly(a, a + b, b.Keys)
  {
  }

  class DataFrame {
    var columns: Columns
    var rows: nat

    ghost predicate Valid()
      reads this
    {
      Rectangular(columns, rows)
    }

    constructor (cols: Columns, n: nat)
      requires Rectangular(cols, n)
      ensures Valid() && columns == cols && rows == n
    {
      columns, rows := cols, n;
    }

    /** `df.copy()`: a new frame with the same cells. */
    method Copy() returns (d: DataFrame)
      requires Valid()
      ensures fresh(d) && d.Valid() && d.columns == columns && d.rows == rows
    {
      d := new DataFrame(columns, rows);
    }

    /** `df[name] = values`: adds the column or replaces it. */
    method SetColumn(name: string, values: seq<Cell>)
      requires Valid() && |values| == rows
      modifies this
      ensures Valid() && rows == old(rows)
      ensures columns == old(columns)[name := values]
    {
      columns := columns[name := values];
    }

    /** `pd.concat([df, other], axis=1)` when the names of `other` are new.
        pandas keeps both columns under a clashing name, which a map from
        names cannot hold: here the column of `other` replaces the old one. */
    method Concat(other: Columns)
      requires Valid() && Rectangular(other, rows)
      modifies this
      ensures Valid() && rows == old(rows)
      ensures columns == old(columns) + other
    {
      columns := columns + other;
    }
  }
}
