/** `DataAnalyzer.detect_data_drift`: each column of the current dataset
    is compared with the first column of the same name in a reference
    dataset; a numeric column by the relative change of its mean, a
    categorical one by half the total variation between the two value
    distributions. A comparison above the threshold is reported. */
module Drift {
  import opened Values
  import opened Seqs
  import opened Stats
  import opened Counting
  import opened Types
  import opened DataUtils
  import opened Analytics

  /** One drift report; `significant` is always true for a reported
      entry. */
  datatype Drift =
    | NumericDrift(column: string, currentMean: real, referenceMean: real, score: real, significant: bool)
    | CategoricalDrift(column: string, score: real, significant: bool)

  // ---------------------------------------------------------------------
  // Numeric columns
  // ---------------------------------------------------------------------

  /** The relative change of the mean as written,
      `abs(current - reference) / reference`, or 0 for a zero reference:
      it is negative whenever the reference mean is. */
  function RelativeChangeAsWritten(current: real, reference: real): real
  {
    if reference != 0.0 then Abs(current - reference) / reference else 0.0
  }

  /** The relative change of the mean, measured against the size of the
      reference mean; 0 for a zero reference. */
  function RelativeChange(current: real, reference: real): (d: real)
    ensures d >= 0.0
  {
    if reference != 0.0 then Abs(current - reference) / Abs(reference) else 0.0
  }

  /** With a non-zero reference the change is zero exactly when the means
      agree, it scales the reference's size back to the distance between
      the means, it does not depend on the sign of the pair, and it agrees
      with the formula as written whenever the reference is positive. */
  lemma RelativeChangeProps(current: real, reference: real)
    requires reference != 0.0
    ensures RelativeChange(current, reference) == 0.0 <==> current == reference
    ensures RelativeChange(current, reference) * Abs(reference) == Abs(current - reference)
    ensures RelativeChange(-current, -reference) == RelativeChange(current, reference)
    ensures reference > 0.0 ==> RelativeChangeAsWritten(current, reference) == RelativeChange(current, reference)
  {
    var d := RelativeChange(current, reference);
    DivMul(Abs(current - reference), Abs(reference));
    assert Abs(-current - -reference) == Abs(current - reference);
    if d == 0.0 {
      assert Abs(current - reference) == 0.0;
    }
  }

  /** As written, a column whose reference mean is negative is never
      reported, however far its mean moves: the score is negative, so no
      non-negative threshold is exceeded. For example, a mean moving from
      -10 to -20 scores -1 where a change of 100% was meant. */
  lemma AsWrittenMissesNegativeMeans(current: real, reference: real, threshold: real)
    requires reference < 0.0 && current != reference && threshold >= 0.0
    ensures RelativeChangeAsWritten(current, reference) < 0.0
    ensures !(RelativeChangeAsWritten(current, reference) > threshold)
    ensures RelativeChange(current, reference) > 0.0
  {
    RelativeChangeProps(current, reference);
    var t := Abs(current - reference);
    var q := t / reference;
    assert q * reference == t;
  }

  lemma AsWrittenExample()
    ensures RelativeChangeAsWritten(-20.0, -10.0) == -1.0
    ensures RelativeChange(-20.0, -10.0) == 1.0
  {
  }

  /** Which relative change of the mean a comparison uses: the formula
      as written, or the one measured against the size of the reference
      mean. */
  datatype Formula = AsWritten | Intended

  function MeanChange(f: Formula, current: real, reference: real): real
  {
    match f
    case AsWritten => RelativeChangeAsWritten(current, reference)
    case Intended => RelativeChange(current, reference)
  }

  /** The numeric comparison of a column with its reference column: both
      must have numbers, and the change of the mean must exceed the
      threshold. */
  function NumericShift(col: DataColumn, ref: DataColumn, threshold: real, f: Formula): seq<Drift>
  {
    var cv := Parsed(col.values);
    var rv := Parsed(ref.values);
    if cv == [] || rv == [] then []
    else
      var cm := Mean(cv);
      var rm := Mean(rv);
      var d := MeanChange(f, cm, rm);
      if d > threshold then [NumericDrift(col.name, cm, rm, d, d > threshold)] else []
  }

  // ---------------------------------------------------------------------
  // Categorical columns
  // ---------------------------------------------------------------------

  /** The share of the values of `s` that are `==` to `c`. */
  function Proportion(s: seq<Cell>, c: Cell): real
    requires s != []
  {
    Count(s, Key(c)) as real / |s| as real
  }

  /** The categories met in either list, each once. */
  function Categories(cur: seq<Cell>, ref: seq<Cell>): seq<Cell>
  {
    DistinctBy(cur + ref, Key)
  }

  /** `Σ |current_prop - ref_prop|` over the categories `cats`. */
  function GapSum(cats: seq<Cell>, cur: seq<Cell>, ref: seq<Cell>): real
    requires cur != [] && ref != []
  {
    if cats == [] then 0.0
    else
      var c := cats[|cats| - 1];
      GapSum(cats[..|cats| - 1], cur, ref) + Abs(Proportion(cur, c) - Proportion(ref, c))
  }

  /** Half the total variation between the two distributions of values. */
  function CategoryShift(cur: seq<Cell>, ref: seq<Cell>): real
    requires cur != [] && ref != []
  {
    GapSum(Categories(cur, ref), cur, ref) / 2.0
  }

  /** The categorical comparison of a column with its reference column:
      both must have present values, and the shift must exceed the
      threshold. */
  function CategoricalShift(col: DataColumn, ref: DataColumn, threshold: real): seq<Drift>
  {
    var cur := Clean(col.values);
    var rs := Clean(ref.values);
    if |cur| > 0 && |rs| > 0 then
      var d := CategoryShift(cur, rs);
      if d > threshold then [CategoricalDrift(col.name, d, d > threshold)] else []
    else []
  }

  /** The gaps add up to at most the two lists' shares of the categories
      listed. */
  lemma {:induction false} GapSumBound(cats: seq<Cell>, cur: seq<Cell>, ref: seq<Cell>)
    requires cur != [] && ref != []
    ensures 0.0 <= GapSum(cats, cur, ref)
    ensures GapSum(cats, cur, ref) <= TotalCount(cats, cur) as real / |cur| as real + TotalCount(cats, ref) as real / |ref| as real
  {
    if cats != [] {
      var front := cats[..|cats| - 1];
      var c := cats[|cats| - 1];
      GapSumBound(front, cur, ref);
      GapStep(TotalCount(front, cur) as real, Count(cur, Key(c)) as real, |cur| as real);
      GapStep(TotalCount(front, ref) as real, Count(ref, Key(c)) as real, |ref| as real);
    }
  }

  lemma GapStep(total: real, count: real, n: real)
    requires n > 0.0 && total >= 0.0 && count >= 0.0
    ensures (total + count) / n == total / n + count / n
    ensures count / n >= 0.0
  {
  }

  /** Every value of `s` falls in one of the categories of `s + t`. */
  lemma CategoriesCover(s: seq<Cell>, t: seq<Cell>)
    ensures DistinctKeys(Categories(s, t), Key)
    ensures Seen(s, Key) <= Seen(Categories(s, t), Key)
    ensures Seen(t, Key) <= Seen(Categories(s, t), Key)
  {
    DistinctByProps(s + t, Key);
    forall k | k in Seen(s, Key) ensures k in Seen(s + t, Key) {
      SeenIff(s, Key, k);
      SeenIff(s + t, Key, k);
      var i :| 0 <= i < |s| && Key(s[i]) == k;
      assert (s + t)[i] == s[i];
    }
    forall k | k in Seen(t, Key) ensures k in Seen(s + t, Key) {
      SeenIff(t, Key, k);
      SeenIff(s + t, Key, k);
      var i :| 0 <= i < |t| && Key(t[i]) == k;
      assert (s + t)[|s| + i] == t[i];
    }
  }

  /** The shift lies between 0 and 1. */
  lemma CategoryShiftBounds(cur: seq<Cell>, ref: seq<Cell>)
    requires cur != [] && ref != []
    ensures 0.0 <= CategoryShift(cur, ref) <= 1.0
  {
    var cats := Categories(cur, ref);
    CategoriesCover(cur, ref);
    TotalCountCovers(cats, cur);
    TotalCountCovers(cats, ref);
    GapSumBound(cats, cur, ref);
    HalfOfTwoShares(GapSum(cats, cur, ref), |cur| as real, |ref| as real);
  }

  lemma HalfOfTwoShares(g: real, a: real, b: real)
    requires a > 0.0 && b > 0.0 && 0.0 <= g <= a / a + b / b
    ensures 0.0 <= g / 2.0 <= 1.0
  {
  }

  lemma {:induction false} GapSumSame(cats: seq<Cell>, s: seq<Cell>)
    requires s != []
    ensures GapSum(cats, s, s) == 0.0
  {
    if cats != [] {
      GapSumSame(cats[..|cats| - 1], s);
    }
  }

  /** A distribution does not shift from itself. */
  lemma CategoryShiftSame(s: seq<Cell>)
    requires s != []
    ensures CategoryShift(s, s) == 0.0
  {
    GapSumSame(Categories(s, s), s);
  }

  // ---------------------------------------------------------------------
  // The whole comparison
  // ---------------------------------------------------------------------


  /** One column's reports: none without a reference column of its name,
      and none for a date or text column. */
  function ColumnDrift(col: DataColumn, refCols: seq<DataColumn>, threshold: real, f: Formula): seq<Drift>
  {
    var ref := FindColumn(refCols, col.name);
    if ref.None? then []
    else if col.dtype == Numeric then NumericShift(col, ref.value, threshold, f)
    else if col.dtype == Categorical then CategoricalShift(col, ref.value, threshold)
    else []
  }

  /** The reports of the columns, in column order. */
  function DriftOf(cols: seq<DataColumn>, refCols: seq<DataColumn>, threshold: real, f: Formula): seq<Drift>
  {
    if cols == [] then []
    else DriftOf(cols[..|cols| - 1], refCols, threshold, f) + ColumnDrift(cols[|cols| - 1], refCols, threshold, f)
  }

  /** `detect_data_drift` as a value; the code computes it with the
      formula `AsWritten`. */
  function DataDrift(ds: Dataset, reference: Dataset, threshold: real, f: Formula): seq<Drift>
  {
    DriftOf(ds.columns, reference.columns, threshold, f)
  }

  /** The loop over the categories that adds up the gaps. */
  method DistributionShift(cur: seq<Cell>, ref: seq<Cell>) returns (score: real)
    requires cur != [] && ref != []
    ensures score == CategoryShift(cur, ref)
  {
    var categories := Categories(cur, ref);
    score := 0.0;
    for i := 0 to |categories|
      invariant score == GapSum(categories[..i], cur, ref)
    {
      var c := categories[i];
      var currentProp := Proportion(cur, c);
      var refProp := Proportion(ref, c);
      score := score + Abs(currentProp - refProp);
      assert categories[..i + 1][..i] == categories[..i];
    }
    assert categories[..|categories|] == categories;
    score := score / 2.0;
  }

  /** One column's comparison, dividing by the signed reference mean as
      the code does. */
  method CompareColumn(col: DataColumn, refCols: seq<DataColumn>, threshold: real) returns (found: seq<Drift>)
    ensures found == ColumnDrift(col, refCols, threshold, AsWritten)
  {
    var ref := FindColumn(refCols, col.name);
    if ref.None? {
      return [];
    }
    found := [];
    if col.dtype == Numeric {
      assert ColumnDrift(col, refCols, threshold, AsWritten) == NumericShift(col, ref.value, threshold, AsWritten);
      var currentValues := Parsed(col.values);
      var refValues := Parsed(ref.value.values);
      if currentValues != [] && refValues != [] {
        var currentMean := Mean(currentValues);
        var refMean := Mean(refValues);
        var meanDiff := RelativeChangeAsWritten(currentMean, refMean);
        if meanDiff > threshold {
          found := [NumericDrift(col.name, currentMean, refMean, meanDiff, meanDiff > threshold)];
        }
      }
    } else if col.dtype == Categorical {
      assert ColumnDrift(col, refCols, threshold, AsWritten) == CategoricalShift(col, ref.value, threshold);
      var cur := Clean(col.values);
      var rs := Clean(ref.value.values);
      if |cur| > 0 && |rs| > 0 {
        var score := DistributionShift(cur, rs);
        if score > threshold {
          found := [CategoricalDrift(col.name, score, score > threshold)];
        }
      }
    }
  }

  /** `detect_data_drift` */
  method DetectDataDrift(ds: Dataset, reference: Dataset, threshold: real) returns (results: seq<Drift>)
    ensures results == DataDrift(ds, reference, threshold, AsWritten)
  {
    var cols := ds.columns;
    results := [];
    for i := 0 to |cols|
      invariant results == DriftOf(cols[..i], reference.columns, threshold, AsWritten)
    {
      var found := CompareColumn(cols[i], reference.columns, threshold);
      assert cols[..i + 1][..i] == cols[..i];
      results := results + found;
    }
    assert cols[..|cols|] == cols;
  }

  /** When a column is reported: it has a namesake in the reference, and
      either both are numeric-bearing and the change of the mean exceeds
      the threshold, or it is categorical, both have present values and
      the shift of the distribution exceeds the threshold. */
  predicate Drifts(col: DataColumn, refCols: seq<DataColumn>, threshold: real, f: Formula)
  {
    var ref := FindColumn(refCols, col.name);
    && ref.Some?
    && (|| (&& col.dtype == Numeric
            && Parsed(col.values) != [] && Parsed(ref.value.values) != []
            && MeanChange(f, Mean(Parsed(col.values)), Mean(Parsed(ref.value.values))) > threshold)
        || (&& col.dtype == Categorical
            && Clean(col.values) != [] && Clean(ref.value.values) != []
            && CategoryShift(Clean(col.values), Clean(ref.value.values)) > threshold))
  }

  /** What a report says about the column `col` it comes from: it names
      `col`, is significant and exceeds the threshold. A numeric report
      comes from a numeric column and carries the means of the two
      columns' numbers and their relative change; for a threshold of at
      least 0 the means differ and the reference mean is not zero, and as
      written it is even positive. A categorical report comes from a
      categorical column and carries the shift of the two distributions,
      at most 1. */
  predicate ReportOf(d: Drift, col: DataColumn, refCols: seq<DataColumn>, threshold: real, f: Formula)
  {
    && d.column == col.name
    && FindColumn(refCols, col.name).Some?
    && d.significant && d.score > threshold
    && (d.NumericDrift? ==>
          var cv, rv := Parsed(col.values), Parsed(FindColumn(refCols, col.name).value.values);
          && col.dtype == Numeric && cv != [] && rv != []
          && d.currentMean == Mean(cv) && d.referenceMean == Mean(rv)
          && d.score == MeanChange(f, d.currentMean, d.referenceMean)
          && (threshold >= 0.0 ==> d.referenceMean != 0.0 && d.currentMean != d.referenceMean)
          && (f == AsWritten && threshold >= 0.0 ==> d.referenceMean > 0.0))
    && (d.CategoricalDrift? ==>
          var cur, rs := Clean(col.values), Clean(FindColumn(refCols, col.name).value.values);
          && col.dtype == Categorical && cur != [] && rs != []
          && d.score == CategoryShift(cur, rs) && d.score <= 1.0)
  }

  /** The numeric facts of `ReportOf` for a change above a threshold of at
      least 0. */
  lemma MeanChangeAbove(f: Formula, cm: real, rm: real, threshold: real)
    requires threshold >= 0.0 && MeanChange(f, cm, rm) > threshold
    ensures rm != 0.0 && cm != rm
    ensures f == AsWritten ==> rm > 0.0
  {
    if rm != 0.0 {
      RelativeChangeProps(cm, rm);
      if f == AsWritten && rm < 0.0 {
        AsWrittenMissesNegativeMeans(cm, rm, threshold);
      }
    }
  }

  /** A column gives a report exactly when `Drifts` holds, never more than
      one, and a report of it says what `ReportOf` says. */
  lemma ColumnDriftSpec(col: DataColumn, refCols: seq<DataColumn>, threshold: real, f: Formula)
    ensures |ColumnDrift(col, refCols, threshold, f)| <= 1
    ensures |ColumnDrift(col, refCols, threshold, f)| == 1 <==> Drifts(col, refCols, threshold, f)
    ensures forall d :: d in ColumnDrift(col, refCols, threshold, f) ==> ReportOf(d, col, refCols, threshold, f)
  {
    var ref := FindColumn(refCols, col.name);
    if ref.Some? {
      if col.dtype == Numeric {
        var cv := Parsed(col.values);
        var rv := Parsed(ref.value.values);
        if cv != [] && rv != [] {
          var cm := Mean(cv);
          var rm := Mean(rv);
          if threshold >= 0.0 && MeanChange(f, cm, rm) > threshold {
            MeanChangeAbove(f, cm, rm, threshold);
          }
        }
      } else if col.dtype == Categorical {
        var cur := Clean(col.values);
        var rs := Clean(ref.value.values);
        if |cur| > 0 && |rs| > 0 {
          CategoryShiftBounds(cur, rs);
        }
      }
    }
  }

  /** Every report comes from a column of the current dataset as
      `ReportOf` describes, at most one per column. */
  lemma {:induction false} DriftOfSpec(cols: seq<DataColumn>, refCols: seq<DataColumn>, threshold: real, f: Formula)
    ensures |DriftOf(cols, refCols, threshold, f)| <= |cols|
    ensures forall d :: d in DriftOf(cols, refCols, threshold, f) ==>
      exists i :: 0 <= i < |cols| && ReportOf(d, cols[i], refCols, threshold, f)
  {
    if cols != [] {
      var front := cols[..|cols| - 1];
      var col := cols[|cols| - 1];
      var before := DriftOf(front, refCols, threshold, f);
      var last := ColumnDrift(col, refCols, threshold, f);
      DriftOfSpec(front, refCols, threshold, f);
      ColumnDriftSpec(col, refCols, threshold, f);
      assert DriftOf(cols, refCols, threshold, f) == before + last;
      forall d | d in before + last
        ensures exists i :: 0 <= i < |cols| && ReportOf(d, cols[i], refCols, threshold, f)
      {
        if d in before {
          var i :| 0 <= i < |front| && ReportOf(d, front[i], refCols, threshold, f);
          assert cols[i] == front[i];
        } else {
          assert ReportOf(d, cols[|cols| - 1], refCols, threshold, f);
        }
      }
    }
  }

  lemma ColumnDriftReported(col: DataColumn, refCols: seq<DataColumn>, threshold: real, f: Formula)
    requires Drifts(col, refCols, threshold, f)
    ensures |ColumnDrift(col, refCols, threshold, f)| == 1
    ensures ColumnDrift(col, refCols, threshold, f)[0].column == col.name
  {
  }

  /** Each column's reports are among the reports of the columns. */
  lemma {:induction false} DriftOfContains(cols: seq<DataColumn>, refCols: seq<DataColumn>, threshold: real, f: Formula)
    ensures forall i, d :: 0 <= i < |cols| && d in ColumnDrift(cols[i], refCols, threshold, f) ==>
      d in DriftOf(cols, refCols, threshold, f)
  {
    if cols != [] {
      var front := cols[..|cols| - 1];
      var before := DriftOf(front, refCols, threshold, f);
      var last := ColumnDrift(cols[|cols| - 1], refCols, threshold, f);
      DriftOfContains(front, refCols, threshold, f);
      assert DriftOf(cols, refCols, threshold, f) == before + last;
      forall i, d | 0 <= i < |cols| && d in ColumnDrift(cols[i], refCols, threshold, f)
        ensures d in before + last
      {
        if i < |front| {
          assert front[i] == cols[i];
          assert d in before;
        }
      }
    }
  }

  /** The reports of a comparison, for either formula: at most one per
      column, each as `ReportOf` describes, and one for every column for
      which `Drifts` holds; with a threshold of 1 or more no categorical
      column is ever reported, and as written, for a threshold of at least
      0, only columns whose reference mean is positive are reported as
      numeric drift. */
  lemma DataDriftSpec(ds: Dataset, reference: Dataset, threshold: real, f: Formula)
    ensures |DataDrift(ds, reference, threshold, f)| <= |ds.columns|
    ensures forall d :: d in DataDrift(ds, reference, threshold, f) ==>
      exists i :: 0 <= i < |ds.columns| && ReportOf(d, ds.columns[i], reference.columns, threshold, f)
    ensures forall i :: 0 <= i < |ds.columns| && Drifts(ds.columns[i], reference.columns, threshold, f) ==>
      exists d :: d in DataDrift(ds, reference, threshold, f) && d.column == ds.columns[i].name
    ensures threshold >= 1.0 ==> forall d :: d in DataDrift(ds, reference, threshold, f) ==> d.NumericDrift?
    ensures f == AsWritten && threshold >= 0.0 ==>
      forall d :: d in DataDrift(ds, reference, threshold, f) && d.NumericDrift? ==> d.referenceMean > 0.0
  {
    var cols := ds.columns;
    DriftOfSpec(cols, reference.columns, threshold, f);
    DriftOfContains(cols, reference.columns, threshold, f);
    forall i | 0 <= i < |cols| && Drifts(cols[i], reference.columns, threshold, f)
      ensures exists d :: d in DataDrift(ds, reference, threshold, f) && d.column == cols[i].name
    {
      ColumnDriftReported(cols[i], reference.columns, threshold, f);
      var d := ColumnDrift(cols[i], reference.columns, threshold, f)[0];
      assert d in ColumnDrift(cols[i], reference.columns, threshold, f);
    }
  }

  /** As written, a numeric column whose reference mean is negative is not
      reported however far its mean moves, while the intended formula
      reports it. */
  lemma NegativeReferenceMissed(col: DataColumn, refCols: seq<DataColumn>, threshold: real)
    requires col.dtype == Numeric && FindColumn(refCols, col.name).Some?
    requires Parsed(col.values) != [] && Parsed(FindColumn(refCols, col.name).value.values) != []
    requires Mean(Parsed(FindColumn(refCols, col.name).value.values)) < 0.0 && threshold >= 0.0
    requires RelativeChange(Mean(Parsed(col.values)), Mean(Parsed(FindColumn(refCols, col.name).value.values))) > threshold
    ensures ColumnDrift(col, refCols, threshold, AsWritten) == []
    ensures |ColumnDrift(col, refCols, threshold, Intended)| == 1
  {
    var cm := Mean(Parsed(col.values));
    var rm := Mean(Parsed(FindColumn(refCols, col.name).value.values));
    RelativeChangeProps(cm, rm);
    AsWrittenMissesNegativeMeans(cm, rm, threshold);
  }

  /** A column compared with itself does not drift, for any threshold of
      at least 0 and either formula. */
  lemma ColumnDriftSelf(col: DataColumn, refCols: seq<DataColumn>, threshold: real, f: Formula)
    requires FindColumn(refCols, col.name) == Some(col) && threshold >= 0.0
    ensures ColumnDrift(col, refCols, threshold, f) == []
  {
    if col.dtype == Numeric {
      NumericShiftSelf(col, threshold, f);
    } else if col.dtype == Categorical {
      CategoricalShiftSelf(col, threshold);
    }
  }

  lemma NumericShiftSelf(col: DataColumn, threshold: real, f: Formula)
    requires threshold >= 0.0
    ensures NumericShift(col, col, threshold, f) == []
  {
    var cv := Parsed(col.values);
    if cv != [] {
      MeanChangeSame(f, Mean(cv));
    }
  }

  lemma MeanChangeSame(f: Formula, m: real)
    ensures MeanChange(f, m, m) == 0.0
  {
    assert Abs(m - m) == 0.0;
  }

  lemma CategoricalShiftSelf(col: DataColumn, threshold: real)
    requires threshold >= 0.0
    ensures CategoricalShift(col, col, threshold) == []
  {
    var cur := Clean(col.values);
    if |cur| > 0 {
      CategoryShiftSame(cur);
    }
  }

  lemma {:induction false} DriftOfSelf(cols: seq<DataColumn>, refCols: seq<DataColumn>, threshold: real, f: Formula)
    requires threshold >= 0.0
    requires forall i :: 0 <= i < |cols| ==> FindColumn(refCols, cols[i].name) == Some(cols[i])
    ensures DriftOf(cols, refCols, threshold, f) == []
  {
    if cols != [] {
      var front := cols[..|cols| - 1];
      assert forall i :: 0 <= i < |front| ==> front[i] == cols[i];
      DriftOfSelf(front, refCols, threshold, f);
      ColumnDriftSelf(cols[|cols| - 1], refCols, threshold, f);
    }
  }

  /** A dataset whose column names are distinct shows no drift against
      itself, for any threshold of at least 0 and either formula. */
  lemma NoDriftAgainstItself(ds: Dataset, threshold: real, f: Formula)
    requires threshold >= 0.0
    requires DistinctNames(ds.columns)
    ensures DataDrift(ds, ds, threshold, f) == []
  {
    var cols := ds.columns;
    forall i | 0 <= i < |cols| ensures FindColumn(cols, cols[i].name) == Some(cols[i]) {
      FindColumnDistinct(cols, i);
    }
    DriftOfSelf(cols, cols, threshold, f);
  }
}
