/** `DataAnalyzer`: four insight scans over an analysed dataset (strong
    correlations, skewed distributions, outliers, dominant categories)
    merged and ranked by confidence; a one-feature least-squares model;
    feature importance by correlation; and drift against a reference
    dataset. */
module Analytics {
  import opened Values
  import opened Rows
  import opened Seqs
  import opened Sorting
  import opened Stats
  import opened Counting
  import opened Types
  import opened DataUtils

  /** The payload of an insight, one shape per scan. */
  datatype InsightData =
    | CorrelationData(correlation: real, pairs: seq<(real, real)>)
    | SkewData(skewness: real, mean: real, std: real)
    | AnomalyData(outliers: seq<real>, count: nat)
    | PatternData(category: Cell, percentage: real)

  /** An insight dictionary; its `description` (formatted numbers) is not
      modelled. */
  datatype Insight = Insight(kind: string, title: string, columns: seq<string>, confidence: real, data: InsightData)

  function Abs(x: real): real
  {
    if x < 0.0 then -x else x
  }

  /** Python's `min(a, b)`. */
  function Min2(a: real, b: real): real
  {
    if b < a then b else a
  }

  predicate IsNumericColumn(col: DataColumn)
  {
    col.dtype == Numeric
  }

  /** `next((c for c in cols if c.name == name), None)`: the first column
      with that name, or `None` when no column has it. */
  function FindColumn(cols: seq<DataColumn>, name: string): (r: Option<DataColumn>)
    ensures r.None? <==> forall i :: 0 <= i < |cols| ==> cols[i].name != name
    ensures r.Some? ==> exists i :: && 0 <= i < |cols| && cols[i] == r.value && r.value.name == name
                                    && forall j :: 0 <= j < i ==> cols[j].name != name
  {
    if cols == [] then None
    else if cols[0].name == name then Some(cols[0])
    else
      var r := FindColumn(cols[1..], name);
      assert forall i :: 1 <= i < |cols| ==> cols[i] == cols[1..][i - 1];
      if r.Some? then
        var k :| && 0 <= k < |cols[1..]| && cols[1..][k] == r.value && r.value.name == name
                 && forall j :: 0 <= j < k ==> cols[1..][j].name != name;
        assert cols[k + 1] == r.value;
        assert forall j :: 0 <= j < k + 1 ==> cols[j].name != name by {
          forall j | 0 <= j < k + 1 ensures cols[j].name != name {
            if j > 0 {
              assert cols[j] == cols[1..][j - 1];
            }
          }
        }
        r
      else
        r
  }

  /** No two columns share a name. */
  predicate DistinctNames(cols: seq<DataColumn>)
  {
    forall i, j :: 0 <= i < j < |cols| ==> cols[i].name != cols[j].name
  }

  /** Among columns with distinct names, the search by a column's name
      finds that column. */
  lemma FindColumnDistinct(cols: seq<DataColumn>, i: nat)
    requires DistinctNames(cols) && i < |cols|
    ensures FindColumn(cols, cols[i].name) == Some(cols[i])
  {
    var r := FindColumn(cols, cols[i].name);
    var k :| && 0 <= k < |cols| && cols[k] == r.value && r.value.name == cols[i].name
             && forall j :: 0 <= j < k ==> cols[j].name != cols[i].name;
    if k != i {
      assert cols[k].name == cols[i].name;
    }
  }

  // ---------------------------------------------------------------------
  // Paired values
  // ---------------------------------------------------------------------

  /** The rows' values of two columns where both parse as numbers, in row
      order. */
  function Pairs(rows: seq<Row>, xName: string, yName: string): (ps: seq<(real, real)>)
    ensures |ps| <= |rows|
  {
    if rows == [] then []
    else
      var front := Pairs(rows[..|rows| - 1], xName, yName);
      var x := SafeParseNumber(Get(rows[|rows| - 1], xName));
      var y := SafeParseNumber(Get(rows[|rows| - 1], yName));
      if x.Some? && y.Some? then front + [(x.value, y.value)] else front
  }

  /** The loop that collects the pairs. */
  method CollectPairs(rows: seq<Row>, xName: string, yName: string) returns (pairs: seq<(real, real)>)
    ensures pairs == Pairs(rows, xName, yName)
  {
    pairs := [];
    for i := 0 to |rows|
      invariant pairs == Pairs(rows[..i], xName, yName)
    {
      assert rows[..i + 1][..i] == rows[..i];
      var x := SafeParseNumber(Get(rows[i], xName));
      var y := SafeParseNumber(Get(rows[i], yName));
      if x.Some? && y.Some? {
        pairs := pairs + [(x.value, y.value)];
      }
    }
    assert rows[..|rows|] == rows;
  }

  /** Every pair is read from one row, where both columns parse. */
  lemma {:induction false} PairsFromRows(rows: seq<Row>, xName: string, yName: string, k: nat)
    requires k < |Pairs(rows, xName, yName)|
    ensures exists i ::
      && 0 <= i < |rows|
      && SafeParseNumber(Get(rows[i], xName)) == Some(Pairs(rows, xName, yName)[k].0)
      && SafeParseNumber(Get(rows[i], yName)) == Some(Pairs(rows, xName, yName)[k].1)
  {
    var front := rows[..|rows| - 1];
    var fs := Pairs(front, xName, yName);
    var ps := Pairs(rows, xName, yName);
    var x := SafeParseNumber(Get(rows[|rows| - 1], xName));
    var y := SafeParseNumber(Get(rows[|rows| - 1], yName));
    assert ps == if x.Some? && y.Some? then fs + [(x.value, y.value)] else fs;
    if k < |fs| {
      assert ps[k] == fs[k];
      PairsFromRows(front, xName, yName, k);
      var i :| 0 <= i < |front|
        && SafeParseNumber(Get(front[i], xName)) == Some(fs[k].0)
        && SafeParseNumber(Get(front[i], yName)) == Some(fs[k].1);
      assert rows[i] == front[i];
    } else {
      assert ps[k] == (x.value, y.value);
    }
  }

  // ---------------------------------------------------------------------
  // _find_correlations
  // ---------------------------------------------------------------------

  /** The test of `_find_correlations` on collected pairs: an insight when
      there are more than 10 pairs and `|r| > 0.7`. */
  function CorrelationInsight(pairs: seq<(real, real)>, a: DataColumn, b: DataColumn): seq<Insight>
  {
    if |pairs| > 10 then
      var r := PairsCorrelation(pairs);
      if Abs(r) > 0.7 then
        [Insight("correlation", "Strong " + (if r > 0.0 then "Positive" else "Negative") + " Correlation",
                 [a.name, b.name], Abs(r) * 100.0, CorrelationData(r, PyPrefix(pairs, 100)))]
      else []
    else []
  }

  /** `calculate_correlation` of the two halves of the pairs. */
  function PairsCorrelation(pairs: seq<(real, real)>): real
  {
    Correlation(Map(pairs, Fst), Map(pairs, Snd))
  }

  /** The thresholds of `_find_correlations`: more than 10 pairs and a
      correlation above 0.7 in absolute value. */
  predicate Strong(pairs: seq<(real, real)>)
  {
    |pairs| > 10 && Abs(PairsCorrelation(pairs)) > 0.7
  }

  /** The inner step of `_find_correlations` for columns `a` and `b`. */
  function PairInsight(rows: seq<Row>, a: DataColumn, b: DataColumn): seq<Insight>
  {
    CorrelationInsight(Pairs(rows, a.name, b.name), a, b)
  }

  /** The inner step as a value, for the loops below. */
  function PairTest(rows: seq<Row>): (DataColumn, DataColumn) -> seq<Insight>
  {
    (a, b) => PairInsight(rows, a, b)
  }

  /** The inner loop: column `a` against each later column, `compare`
      being the inner step. */
  function PairsWith(compare: (DataColumn, DataColumn) -> seq<Insight>, a: DataColumn, later: seq<DataColumn>): seq<Insight>
  {
    if later == [] then []
    else PairsWith(compare, a, later[..|later| - 1]) + compare(a, later[|later| - 1])
  }

  /** The first `i` rounds of the outer loop over the numeric columns. */
  function CorrelationScan(compare: (DataColumn, DataColumn) -> seq<Insight>, numeric: seq<DataColumn>, i: nat): seq<Insight>
    requires i <= |numeric|
  {
    if i == 0 then [] else CorrelationScan(compare, numeric, i - 1) + PairsWith(compare, numeric[i - 1], numeric[i..])
  }

  function NumericColumns(cols: seq<DataColumn>): seq<DataColumn>
  {
    Filter(cols, IsNumericColumn)
  }

  /** `_find_correlations` as a value. */
  function Correlations(ds: Dataset): seq<Insight>
  {
    var numeric := NumericColumns(ds.columns);
    CorrelationScan(PairTest(ds.rows), numeric, |numeric|)
  }

  /** The inner step: pairs, correlation and the thresholds. */
  method ComparePair(rows: seq<Row>, a: DataColumn, b: DataColumn) returns (found: seq<Insight>)
    ensures found == PairInsight(rows, a, b)
  {
    var pairs := CollectPairs(rows, a.name, b.name);
    found := CorrelationInsight(pairs, a, b);
  }

  /** The inner loop of `_find_correlations`. */
  method CompareWithLater(rows: seq<Row>, a: DataColumn, later: seq<DataColumn>) returns (found: seq<Insight>)
    ensures found == PairsWith(PairTest(rows), a, later)
  {
    found := [];
    for j := 0 to |later|
      invariant found == PairsWith(PairTest(rows), a, later[..j])
    {
      assert later[..j + 1][..j] == later[..j];
      var step := ComparePair(rows, a, later[j]);
      found := found + step;
    }
    assert later[..|later|] == later;
  }

  /** `_find_correlations`. */
  method FindCorrelations(ds: Dataset) returns (insights: seq<Insight>)
    ensures insights == Correlations(ds)
  {
    var numeric := NumericColumns(ds.columns);
    insights := [];
    for i := 0 to |numeric|
      invariant insights == CorrelationScan(PairTest(ds.rows), numeric, i)
    {
      var found := CompareWithLater(ds.rows, numeric[i], numeric[i + 1..]);
      insights := insights + found;
    }
  }

  /** The insight reported for columns `a` and `b` with paired values
      `pairs`: the thresholds hold, the confidence is `|r| * 100` for
      their correlation `r`, and the data carry `r` and the first 100
      pairs. */
  predicate CorrelationReport(ins: Insight, pairs: seq<(real, real)>, a: DataColumn, b: DataColumn)
  {
    && ins.kind == "correlation"
    && ins.columns == [a.name, b.name]
    && Strong(pairs)
    && ins.data == CorrelationData(PairsCorrelation(pairs), PyPrefix(pairs, 100))
    && ins.confidence == Abs(PairsCorrelation(pairs)) * 100.0
  }

  /** A correlation insight for a pair of numeric columns, the first
      earlier in the column list, computed from their pairs in `rows`. */
  predicate CorrelationFor(ins: Insight, rows: seq<Row>, numeric: seq<DataColumn>)
  {
    exists i, j :: 0 <= i < j < |numeric| &&
      CorrelationReport(ins, Pairs(rows, numeric[i].name, numeric[j].name), numeric[i], numeric[j])
  }

  predicate AllCorrelationsFor(s: seq<Insight>, rows: seq<Row>, numeric: seq<DataColumn>)
  {
    forall k :: 0 <= k < |s| ==> CorrelationFor(s[k], rows, numeric)
  }

  /** The test on collected pairs reports one insight exactly when the
      thresholds hold, with confidence above 70 and at most 100 pairs. */
  lemma CorrelationInsightSpec(pairs: seq<(real, real)>, a: DataColumn, b: DataColumn)
    ensures |CorrelationInsight(pairs, a, b)| <= 1
    ensures CorrelationInsight(pairs, a, b) != [] <==> Strong(pairs)
    ensures CorrelationInsight(pairs, a, b) != [] ==>
      && CorrelationReport(CorrelationInsight(pairs, a, b)[0], pairs, a, b)
      && CorrelationInsight(pairs, a, b)[0].confidence > 70.0
      && 10 < |CorrelationInsight(pairs, a, b)[0].data.pairs| <= 100
  {
  }

  lemma PairInsightSpec(rows: seq<Row>, a: DataColumn, b: DataColumn)
    ensures |PairInsight(rows, a, b)| <= 1
    ensures PairInsight(rows, a, b) != [] <==> Strong(Pairs(rows, a.name, b.name))
    ensures PairInsight(rows, a, b) != [] ==>
      CorrelationReport(PairInsight(rows, a, b)[0], Pairs(rows, a.name, b.name), a, b)
  {
    CorrelationInsightSpec(Pairs(rows, a.name, b.name), a, b);
  }

  /** When every comparison of `a` with `b` only finds insights that
      `report` accepts for them, so does the inner loop, for `a` and one
      of the later columns. */
  lemma {:induction false} PairsWithReports(compare: (DataColumn, DataColumn) -> seq<Insight>,
                                            report: (Insight, DataColumn, DataColumn) -> bool,
                                            a: DataColumn, later: seq<DataColumn>)
    requires forall x, y, k :: 0 <= k < |compare(x, y)| ==> report(compare(x, y)[k], x, y)
    ensures forall k :: 0 <= k < |PairsWith(compare, a, later)| ==>
      exists j :: 0 <= j < |later| && report(PairsWith(compare, a, later)[k], a, later[j])
  {
    if later != [] {
      var front := later[..|later| - 1];
      var last := later[|later| - 1];
      PairsWithReports(compare, report, a, front);
      var f := PairsWith(compare, a, front);
      var s := PairsWith(compare, a, later);
      assert s == f + compare(a, last);
      forall k | 0 <= k < |s|
        ensures exists j :: 0 <= j < |later| && report(s[k], a, later[j])
      {
        if k < |f| {
          var j :| 0 <= j < |front| && report(f[k], a, front[j]);
          assert s[k] == f[k] && front[j] == later[j];
        } else {
          assert s[k] == compare(a, last)[k - |f|];
          assert report(s[k], a, later[|later| - 1]);
        }
      }
      assert forall k :: 0 <= k < |s| ==> exists j :: 0 <= j < |later| && report(s[k], a, later[j]);
    } else {
      assert PairsWith(compare, a, later) == [];
    }
  }

  /** ... and so does the outer loop, for two columns, the first listed
      earlier. */
  lemma {:induction false} ScanReports(compare: (DataColumn, DataColumn) -> seq<Insight>,
                                       report: (Insight, DataColumn, DataColumn) -> bool,
                                       numeric: seq<DataColumn>, n: nat)
    requires n <= |numeric|
    requires forall x, y, k :: 0 <= k < |compare(x, y)| ==> report(compare(x, y)[k], x, y)
    ensures forall k :: 0 <= k < |CorrelationScan(compare, numeric, n)| ==>
      exists i, j :: 0 <= i < j < |numeric| && report(CorrelationScan(compare, numeric, n)[k], numeric[i], numeric[j])
  {
    if n > 0 {
      ScanReports(compare, report, numeric, n - 1);
      PairsWithReports(compare, report, numeric[n - 1], numeric[n..]);
      var e := CorrelationScan(compare, numeric, n - 1);
      var r := PairsWith(compare, numeric[n - 1], numeric[n..]);
      var s := CorrelationScan(compare, numeric, n);
      assert s == e + r;
      forall k | 0 <= k < |s|
        ensures exists i, j :: 0 <= i < j < |numeric| && report(s[k], numeric[i], numeric[j])
      {
        if k < |e| {
          assert s[k] == e[k];
        } else {
          assert s[k] == r[k - |e|];
          var j :| 0 <= j < |numeric[n..]| && report(r[k - |e|], numeric[n - 1], numeric[n..][j]);
          assert numeric[n..][j] == numeric[n + j];
          assert report(s[k], numeric[n - 1], numeric[n + j]);
        }
      }
      assert forall k :: 0 <= k < |s| ==> exists i, j :: 0 <= i < j < |numeric| && report(s[k], numeric[i], numeric[j]);
    } else {
      assert CorrelationScan(compare, numeric, n) == [];
    }
  }

  /** Every correlation insight is reported for two numeric columns, the
      first listed earlier, from their paired values: more than 10 pairs,
      `|r| > 0.7`, confidence `|r| * 100`, and the first 100 pairs. */
  lemma CorrelationsSpec(ds: Dataset)
    ensures AllCorrelationsFor(Correlations(ds), ds.rows, NumericColumns(ds.columns))
    ensures forall k :: 0 <= k < |NumericColumns(ds.columns)| ==> NumericColumns(ds.columns)[k].dtype == Numeric
  {
    var numeric := NumericColumns(ds.columns);
    var test := PairTest(ds.rows);
    var report := (ins: Insight, a: DataColumn, b: DataColumn) => CorrelationReport(ins, Pairs(ds.rows, a.name, b.name), a, b);
    forall x, y, k | 0 <= k < |test(x, y)| ensures report(test(x, y)[k], x, y) {
      PairInsightSpec(ds.rows, x, y);
    }
    ScanReports(test, report, numeric, |numeric|);
    FilterSatisfies(ds.columns, IsNumericColumn);
  }

  /** Conversely, every pair of numeric columns, the first listed earlier,
      whose paired values pass the thresholds is reported. */
  lemma CorrelationsComplete(ds: Dataset)
    ensures var numeric := NumericColumns(ds.columns);
      forall i, j :: 0 <= i < j < |numeric| && Strong(Pairs(ds.rows, numeric[i].name, numeric[j].name)) ==>
        exists ins :: (ins in Correlations(ds)
                       && CorrelationReport(ins, Pairs(ds.rows, numeric[i].name, numeric[j].name), numeric[i], numeric[j]))
  {
    var numeric := NumericColumns(ds.columns);
    forall i, j | 0 <= i < j < |numeric| && Strong(Pairs(ds.rows, numeric[i].name, numeric[j].name))
      ensures exists ins :: (ins in Correlations(ds)
                             && CorrelationReport(ins, Pairs(ds.rows, numeric[i].name, numeric[j].name), numeric[i], numeric[j]))
    {
      PairInsightSpec(ds.rows, numeric[i], numeric[j]);
      var ins := PairInsight(ds.rows, numeric[i], numeric[j])[0];
      assert ins in PairTest(ds.rows)(numeric[i], numeric[j]);
      ScanContains(PairTest(ds.rows), numeric, |numeric|, i, j, ins);
    }
  }

  /** Round `i` of the outer loop compares column `i` with column `j`, and
      later rounds keep what it found. */
  lemma ScanContains(compare: (DataColumn, DataColumn) -> seq<Insight>, numeric: seq<DataColumn>, n: nat, i: nat,
                     j: nat, ins: Insight)
    requires i < j < |numeric| && i < n <= |numeric|
    requires ins in compare(numeric[i], numeric[j])
    ensures ins in CorrelationScan(compare, numeric, n)
  {
    var later := numeric[i + 1..];
    assert later[j - i - 1] == numeric[j];
    PairsWithContains(compare, numeric[i], later, j - i - 1, ins);
    var upto := CorrelationScan(compare, numeric, i + 1);
    assert upto == CorrelationScan(compare, numeric, i) + PairsWith(compare, numeric[i], later);
    ScanPrefix(compare, numeric, i + 1, n);
    var k :| 0 <= k < |upto| && upto[k] == ins;
    assert CorrelationScan(compare, numeric, n)[k] == ins;
  }

  /** Later rounds only append to what the earlier ones found. */
  lemma {:induction false} ScanPrefix(compare: (DataColumn, DataColumn) -> seq<Insight>, numeric: seq<DataColumn>,
                                      m: nat, n: nat)
    requires m <= n <= |numeric|
    ensures CorrelationScan(compare, numeric, m) <= CorrelationScan(compare, numeric, n)
    decreases n
  {
    if m < n {
      ScanPrefix(compare, numeric, m, n - 1);
    }
  }

  /** The inner loop keeps what each comparison found. */
  lemma {:induction false} PairsWithContains(compare: (DataColumn, DataColumn) -> seq<Insight>, a: DataColumn,
                                             later: seq<DataColumn>, j: nat, ins: Insight)
    requires j < |later| && ins in compare(a, later[j])
    ensures ins in PairsWith(compare, a, later)
  {
    var front := later[..|later| - 1];
    if j < |later| - 1 {
      assert front[j] == later[j];
      PairsWithContains(compare, a, front, j, ins);
    }
  }

  // ---------------------------------------------------------------------
  // _analyze_distributions, _detect_anomalies, _find_patterns
  // ---------------------------------------------------------------------

  /** `sum((v - m) ** 3 for v in s)` */
  function CubeDist(s: seq<real>, m: real): real
  {
    if s == [] then 0.0
    else
      var d := s[|s| - 1] - m;
      CubeDist(s[..|s| - 1], m) + d * d * d
  }

  /** The three per-column scans. */
  datatype Scan = Distributions | Anomalies | Patterns

  /** One column's contribution to a scan. */
  function ColumnInsight(scan: Scan, col: DataColumn): seq<Insight>
  {
    match scan
    case Distributions => if col.dtype == Numeric then SkewInsight(col) else []
    case Anomalies => if col.dtype == Numeric then AnomalyInsight(col) else []
    case Patterns => if col.dtype == Categorical then PatternInsight(col) else []
  }

  /** `_analyze_distributions` for a numeric column: reported when the
      sample deviation is positive and `|skewness| > 1`. */
  function SkewInsight(col: DataColumn): seq<Insight>
  {
    var values := Parsed(col.values);
    if |values| > 0 then
      var m := Mean(values);
      var std := if |values| > 1 then StdDev(values) else 0.0;
      if std > 0.0 then
        var skewness := CubeDist(values, m) / (|values| as real * (std * std * std));
        if Abs(skewness) > 1.0 then
          [Insight("distribution", col.name + " Distribution Skew", [col.name], Min2(Abs(skewness) * 30.0, 95.0),
                   SkewData(skewness, m, std))]
        else []
      else []
    else []
  }

  /** The share of the values that are outliers, in percent. */
  function OutlierPercent(values: seq<real>): real
  {
    if values == [] then 0.0 else (|DetectOutliers(values)| as real / |values| as real) * 100.0
  }

  /** `_detect_anomalies` for a numeric column: reported when there are
      outliers. */
  function AnomalyInsight(col: DataColumn): seq<Insight>
  {
    var values := Parsed(col.values);
    if |values| > 0 then
      var outliers := DetectOutliers(values);
      if outliers != [] then
        [Insight("anomaly", "Outliers Detected in " + col.name, [col.name], Min2(OutlierPercent(values) * 2.0, 95.0),
                 AnomalyData(PyPrefix(outliers, 10), |outliers|))]
      else []
    else []
  }

  /** `_find_patterns` for a categorical column: reported when the most
      common present value makes up more than half of them. */
  function PatternInsight(col: DataColumn): seq<Insight>
  {
    var present := Clean(col.values);
    if present != [] then
      var top := Mode(present);
      var percentage := (top.1 as real / |present| as real) * 100.0;
      if percentage > 50.0 then
        [Insight("pattern", "Dominant Category in " + col.name, [col.name], percentage, PatternData(top.0, percentage))]
      else []
    else []
  }

  /** A scan over the columns, in order. */
  function Scanned(scan: Scan, cols: seq<DataColumn>): seq<Insight>
  {
    FlatMap(cols, ScanOf(scan))
  }

  function ScanOf(scan: Scan): DataColumn -> seq<Insight>
  {
    (col: DataColumn) => ColumnInsight(scan, col)
  }

  /** The loop of each per-column scan. */
  method ScanColumns(scan: Scan, cols: seq<DataColumn>) returns (insights: seq<Insight>)
    ensures insights == Scanned(scan, cols)
  {
    insights := [];
    for i := 0 to |cols|
      invariant insights == Scanned(scan, cols[..i])
    {
      assert cols[..i + 1][..i] == cols[..i];
      insights := insights + ColumnInsight(scan, cols[i]);
    }
    assert cols[..|cols|] == cols;
  }

  /** What each scan's insights say about their column. */
  predicate InsightFor(scan: Scan, ins: Insight, col: DataColumn)
  {
    && ins.columns == [col.name]
    && match scan
       case Distributions =>
         && ins.kind == "distribution" && col.dtype == Numeric
         && 30.0 < ins.confidence <= 95.0
         && 2 <= |Parsed(col.values)| && !Constant(Parsed(col.values))
       case Anomalies =>
         && ins.kind == "anomaly" && col.dtype == Numeric
         && 0.0 < ins.confidence <= 95.0
         && ins.confidence == Min2(OutlierPercent(Parsed(col.values)) * 2.0, 95.0)
         && ins.data.AnomalyData?
         && ins.data.count == |DetectOutliers(Parsed(col.values))| > 0
         && ins.data.outliers == PyPrefix(DetectOutliers(Parsed(col.values)), 10)
       case Patterns =>
         && ins.kind == "pattern" && col.dtype == Categorical
         && 50.0 < ins.confidence <= 100.0
         && ins.data.PatternData?
         && ins.data.category in Clean(col.values)
         && ins.confidence == ins.data.percentage == Percentage(Clean(col.values), ins.data.category)
         && forall x :: x in Clean(col.values) ==> Count(Clean(col.values), Key(x)) <= Count(Clean(col.values), Key(ins.data.category))
  }

  /** `(count / total) * 100`: the share of the present values equal to
      `x`, in percent. */
  function Percentage(present: seq<Cell>, x: Cell): real
  {
    if present == [] then 0.0 else (Count(present, Key(x)) as real / |present| as real) * 100.0
  }

  /** Some present value makes up more than half of the present values. */
  predicate Dominated(col: DataColumn)
  {
    exists x :: x in Clean(col.values) && Percentage(Clean(col.values), x) > 50.0
  }

  lemma SkewInsightSpec(col: DataColumn)
    ensures |SkewInsight(col)| <= 1
    ensures SkewInsight(col) != [] ==> InsightFor(Distributions, SkewInsight(col)[0], col) || col.dtype != Numeric
  {
    var values := Parsed(col.values);
    if SkewInsight(col) != [] {
      assert |values| > 1;
      StdDevPositive(values);
      var skewness := SkewInsight(col)[0].data.skewness;
      assert Abs(skewness) > 1.0;
    }
  }

  lemma AnomalyInsightSpec(col: DataColumn)
    ensures |AnomalyInsight(col)| <= 1
    ensures AnomalyInsight(col) != [] <==> Parsed(col.values) != [] && DetectOutliers(Parsed(col.values)) != []
    ensures AnomalyInsight(col) != [] && col.dtype == Numeric ==> InsightFor(Anomalies, AnomalyInsight(col)[0], col)
  {
    var values := Parsed(col.values);
    if values != [] && DetectOutliers(values) != [] {
      var outliers := DetectOutliers(values);
      DetectOutliersSpec(values);
      FilterMembership(values, OutsideFence(IqrBounds(values)));
      PercentPositive(|outliers|, |values|);
    }
  }

  /** `(k / n) * 100` lies in `(0, 100]` for `0 < k <= n`. */
  lemma PercentPositive(k: nat, n: nat)
    requires 0 < k <= n
    ensures 0.0 < (k as real / n as real) * 100.0 <= 100.0
  {
    DivBetween(k as real, n as real, 0.0, 1.0);
    assert k as real / n as real > 0.0;
  }

  lemma PatternInsightSpec(col: DataColumn)
    ensures |PatternInsight(col)| <= 1
    ensures PatternInsight(col) != [] <==> Dominated(col)
    ensures PatternInsight(col) != [] && col.dtype == Categorical ==> InsightFor(Patterns, PatternInsight(col)[0], col)
  {
    var present := Clean(col.values);
    if present != [] {
      var top := Mode(present);
      ModeIsMostFrequent(present);
      PercentPositive(top.1, |present|);
      assert Percentage(present, top.0) == (top.1 as real / |present| as real) * 100.0;
      if Dominated(col) {
        var x :| x in present && Percentage(present, x) > 50.0;
        PercentMonotone(Count(present, Key(x)), top.1, |present|);
      }
    }
  }

  /** A larger count is a larger share. */
  lemma PercentMonotone(a: nat, b: nat, n: nat)
    requires a <= b && n > 0
    ensures (a as real / n as real) * 100.0 <= (b as real / n as real) * 100.0
  {
    var x, y := a as real / n as real, b as real / n as real;
    assert x * n as real == a as real && y * n as real == b as real;
  }

  lemma ColumnInsightSpec(scan: Scan, col: DataColumn)
    ensures |ColumnInsight(scan, col)| <= 1
    ensures forall k :: 0 <= k < |ColumnInsight(scan, col)| ==> InsightFor(scan, ColumnInsight(scan, col)[k], col)
  {
    match scan
    case Distributions =>
      SkewInsightSpec(col);
    case Anomalies =>
      AnomalyInsightSpec(col);
    case Patterns =>
      PatternInsightSpec(col);
  }

  /** Each scan reports at most once per column, only for columns of its
      type, and every insight states what its scan found: a positive
      deviation and `|skewness| > 1` (confidence in `(30, 95]`), a
      non-empty outlier list with its full count (confidence in `(0, 95]`),
      or a most frequent value above half of the present ones (confidence
      in `(50, 100]`). */
  lemma {:induction false} ScannedSpec(scan: Scan, cols: seq<DataColumn>)
    ensures |Scanned(scan, cols)| <= |cols|
    ensures forall k :: 0 <= k < |Scanned(scan, cols)| ==>
      exists j :: 0 <= j < |cols| && InsightFor(scan, Scanned(scan, cols)[k], cols[j])
  {
    if cols != [] {
      var front, last := cols[..|cols| - 1], cols[|cols| - 1];
      ScannedSpec(scan, front);
      ColumnInsightSpec(scan, last);
      var s := Scanned(scan, cols);
      forall k | 0 <= k < |s| ensures exists j :: 0 <= j < |cols| && InsightFor(scan, s[k], cols[j])
      {
        if k < |Scanned(scan, front)| {
          var j :| 0 <= j < |front| && InsightFor(scan, Scanned(scan, front)[k], front[j]);
          assert cols[j] == front[j];
        } else {
          assert InsightFor(scan, s[k], cols[|cols| - 1]);
        }
      }
    }
  }

  /** The scan keeps what each column contributed. */
  lemma ScannedContains(scan: Scan, cols: seq<DataColumn>, j: nat, ins: Insight)
    requires j < |cols| && ins in ColumnInsight(scan, cols[j])
    ensures ins in Scanned(scan, cols)
  {
    FlatMapContains(cols, ScanOf(scan), j, ins);
  }

  /** Conversely, every categorical column one of whose present values
      makes up more than half of them is reported by the pattern scan. */
  lemma PatternsComplete(cols: seq<DataColumn>)
    ensures forall j :: 0 <= j < |cols| && cols[j].dtype == Categorical && Dominated(cols[j]) ==>
      exists ins :: (ins in Scanned(Patterns, cols) && InsightFor(Patterns, ins, cols[j]))
  {
    forall j | 0 <= j < |cols| && cols[j].dtype == Categorical && Dominated(cols[j])
      ensures exists ins :: (ins in Scanned(Patterns, cols) && InsightFor(Patterns, ins, cols[j]))
    {
      PatternInsightSpec(cols[j]);
      var ins := PatternInsight(cols[j])[0];
      assert ins in ColumnInsight(Patterns, cols[j]);
      ScannedContains(Patterns, cols, j, ins);
    }
  }

  // ---------------------------------------------------------------------
  // generate_insights
  // ---------------------------------------------------------------------

  /** The four scans' results, extended one after the other. */
  function AllInsights(ds: Dataset): seq<Insight>
  {
    Correlations(ds) + Scanned(Distributions, ds.columns) + Scanned(Anomalies, ds.columns) + Scanned(Patterns, ds.columns)
  }

  function ConfidenceKey(ins: Insight): SortKey
  {
    Number(ins.confidence)
  }

  /** `generate_insights` as a value: the insights in stable order of
      decreasing confidence, the first 10. */
  function Insights(ds: Dataset): seq<Insight>
  {
    PyPrefix(SortBy(AllInsights(ds), ConfidenceKey, true), 10)
  }

  /** `generate_insights` */
  method GenerateInsights(ds: Dataset) returns (insights: seq<Insight>)
    ensures insights == Insights(ds)
  {
    var all := FindCorrelations(ds);
    var distributions := ScanColumns(Distributions, ds.columns);
    all := all + distributions;
    var anomalies := ScanColumns(Anomalies, ds.columns);
    all := all + anomalies;
    var patterns := ScanColumns(Patterns, ds.columns);
    all := all + patterns;
    var ranked := SortBy(all, ConfidenceKey, true);
    insights := if |ranked| > 10 then ranked[..10] else ranked;
  }

  /** A prefix of a list sorted by decreasing confidence is in that order,
      and nothing after it has more confidence than anything in it. */
  lemma {:induction false} RankedPrefix(sorted: seq<Insight>, n: nat)
    requires n <= |sorted| && SortedBy(sorted, ConfidenceKey, true)
    ensures multiset(sorted[..n]) <= multiset(sorted)
    ensures forall i, j :: 0 <= i < j < n ==> sorted[i].confidence >= sorted[j].confidence
    ensures forall x, k :: x in multiset(sorted) - multiset(sorted[..n]) && 0 <= k < n ==>
      x.confidence <= sorted[k].confidence
  {
    var top := sorted[..n];
    assert sorted == top + sorted[n..];
    assert multiset(sorted) == multiset(top) + multiset(sorted[n..]);
    forall i, j | 0 <= i < j < n ensures sorted[i].confidence >= sorted[j].confidence
    {
      assert InOrder(ConfidenceKey(sorted[i]), ConfidenceKey(sorted[j]), true);
    }
    forall x, k | x in multiset(sorted) - multiset(top) && 0 <= k < n
      ensures x.confidence <= sorted[k].confidence
    {
      assert x in multiset(sorted[n..]);
      assert x in sorted[n..];
      var m' :| 0 <= m' < |sorted[n..]| && sorted[n..][m'] == x;
      assert sorted[n + m'] == x;
      assert InOrder(ConfidenceKey(sorted[k]), ConfidenceKey(sorted[n + m']), true);
    }
  }

  /** The first 10 of a list ranked by decreasing confidence. */
  lemma {:induction false} RankedTop(all: seq<Insight>)
    ensures var top := PyPrefix(SortBy(all, ConfidenceKey, true), 10);
      && |top| == (if |all| < 10 then |all| else 10)
      && multiset(top) <= multiset(all)
      && (forall i, j :: 0 <= i < j < |top| ==> top[i].confidence >= top[j].confidence)
      && (forall x, k :: x in multiset(all) - multiset(top) && 0 <= k < |top| ==> x.confidence <= top[k].confidence)
  {
    TopTen(SortBy(all, ConfidenceKey, true));
  }

  /** The first 10 of a list sorted by decreasing confidence. */
  lemma TopTen(sorted: seq<Insight>)
    requires SortedBy(sorted, ConfidenceKey, true)
    ensures var top := PyPrefix(sorted, 10);
      && |top| == (if |sorted| < 10 then |sorted| else 10)
      && multiset(top) <= multiset(sorted)
      && (forall i, j :: 0 <= i < j < |top| ==> top[i].confidence >= top[j].confidence)
      && (forall x, k :: x in multiset(sorted) - multiset(top) && 0 <= k < |top| ==> x.confidence <= top[k].confidence)
  {
    var top := PyPrefix(sorted, 10);
    var n := |top|;
    assert top == sorted[..n];
    RankedPrefix(sorted, n);
  }

  /** At most 10 insights, drawn from the scans, in non-increasing order of
      confidence; an insight left out has no more confidence than any
      insight kept. */
  lemma InsightsSpec(ds: Dataset)
    ensures |Insights(ds)| == (if |AllInsights(ds)| < 10 then |AllInsights(ds)| else 10)
    ensures multiset(Insights(ds)) <= multiset(AllInsights(ds))
    ensures forall i, j :: 0 <= i < j < |Insights(ds)| ==> Insights(ds)[i].confidence >= Insights(ds)[j].confidence
    ensures forall x, k :: x in multiset(AllInsights(ds)) - multiset(Insights(ds)) && 0 <= k < |Insights(ds)| ==>
      x.confidence <= Insights(ds)[k].confidence
  {
    RankedTop(AllInsights(ds));
  }
}
