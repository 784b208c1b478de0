/** The baseline means as the analyzer's constructor reads them from the
    baseline CSV with pandas: `dataset.get(name, pd.Series([0])).mean()` for
    each of the three metric columns. */
module Dataset {
  import opened Stats
  import opened Ieee
  import opened Risk

  /** One field of a numeric CSV column: a number, or an empty field, which
      pandas reads as NaN. */
  datatype Cell = Value(v: real) | Blank

  /** A column of the dataset, or its absence. */
  datatype Column = Missing | Present(cells: seq<Cell>)

  /** The numbers of a column in order, empty fields skipped: every number
      comes from a cell, and none is left only when every field is empty. */
  function Values(cells: seq<Cell>): (r: seq<real>)
    ensures |r| <= |cells|
    ensures r == [] <==> forall i :: 0 <= i < |cells| ==> cells[i].Blank?
    ensures forall x :: x in r ==> Value(x) in cells
  {
    if |cells| == 0 then []
    else
      var rest := Values(cells[1..]);
      assert (forall i :: 0 <= i < |cells| ==> cells[i].Blank?) <==>
        cells[0].Blank? && forall i :: 0 <= i < |cells| - 1 ==> cells[1..][i].Blank? by {
        assert forall i :: 1 <= i < |cells| ==> cells[i] == cells[1..][i - 1];
      }
      match cells[0]
      case Value(x) => [x] + rest
      case Blank => rest
  }

  /** A single field contributes its number, or nothing when it is empty. */
  lemma ValuesOfCell(c: Cell)
    ensures Values([c]) == if c.Value? then [c.v] else []
  {
    assert [c][1..] == [];
  }

  /** Reading two stretches of a column one after the other gives their
      numbers one after the other. With `ValuesOfCell` this fixes `Values`
      completely: every number of the column is kept, once, in order. */
  lemma {:induction false} ValuesAppend(a: seq<Cell>, b: seq<Cell>)
    ensures Values(a + b) == Values(a) + Values(b)
  {
    if |a| == 0 {
      assert a + b == b;
    } else {
      assert (a + b)[1..] == a[1..] + b;
      ValuesAppend(a[1..], b);
    }
  }

  /** pandas `.mean()` of one baseline column. A missing column is replaced
      by the series [0], whose mean is 0. Otherwise empty fields are skipped;
      the mean is NaN when no number is left, and the mean of the numbers
      when there is one. */
  function ColumnMean(col: Column): (r: Float)
    ensures col == Missing ==> r == Num(0.0)
    ensures r == NaN <==> col.Present? && forall i :: 0 <= i < |col.cells| ==> col.cells[i].Blank?
    ensures r.Num? || r == NaN
    ensures col.Present? && Values(col.cells) != [] ==> r == Num(Mean(Values(col.cells)))
  {
    match col
    case Missing => Num(Mean([0.0]))
    case Present(cells) =>
      var xs := Values(cells);
      if xs == [] then NaN else Num(Mean(xs))
  }

  /** The three baseline means of a dataset with these three columns. */
  function LoadBaseline(stdCol: Column, cvCol: Column, fatigueCol: Column): Baseline
  {
    Baseline(ColumnMean(stdCol), ColumnMean(cvCol), ColumnMean(fatigueCol))
  }

  /** A column whose every field holds the same number has that number as
      its mean. */
  lemma ConstantColumnMean(cells: seq<Cell>, c: real)
    requires |cells| > 0
    requires forall i :: 0 <= i < |cells| ==> cells[i] == Value(c)
    ensures ColumnMean(Present(cells)) == Num(c)
  {
    var xs := Values(cells);
    assert !cells[0].Blank?;
    forall i | 0 <= i < |xs|
      ensures xs[i] == c
    {
      assert xs[i] in xs;
    }
  }

  /** A dataset lacking all three columns gives an all-zero baseline, so the
      thresholds are the bare offsets 0.02, 0.05 and 0.03. */
  lemma MissingColumnsGiveZeroBaseline()
    ensures LoadBaseline(Missing, Missing, Missing) == Baseline(Num(0.0), Num(0.0), Num(0.0))
  {
  }

  /** A column that is present but has no number in it switches its test
      off for every session. */
  lemma BlankColumnDisablesTest(m: Metrics, stdCol: Column, cvCol: Column, fatigueCol: Column)
    ensures stdCol.Present? && (forall i :: 0 <= i < |stdCol.cells| ==> stdCol.cells[i].Blank?) ==>
      !StdRaised(m, LoadBaseline(stdCol, cvCol, fatigueCol))
    ensures cvCol.Present? && (forall i :: 0 <= i < |cvCol.cells| ==> cvCol.cells[i].Blank?) ==>
      !CvRaised(m, LoadBaseline(stdCol, cvCol, fatigueCol))
    ensures fatigueCol.Present? && (forall i :: 0 <= i < |fatigueCol.cells| ==> fatigueCol.cells[i].Blank?) ==>
      !FatigueRaised(m, LoadBaseline(stdCol, cvCol, fatigueCol))
  {
    NaNBaselineDisablesTest(m, LoadBaseline(stdCol, cvCol, fatigueCol));
  }
}
