/** Column typing, dataset analysis and profiling: how a column of cells is
    classified, how rows become an analysed dataset, the IQR outlier rule,
    basic statistics, the guards of Pearson correlation, and the quality
    profile. */
module DataUtils {
  import opened Values
  import opened Strings
  import opened Rows
  import opened Seqs
  import opened Stats
  import opened Types

  /** `v is not None and v != ''` */
  predicate Present(c: Cell)
  {
    !IsMissing(c)
  }

  /** `[v for v in values if v is not None and v != '']` */
  function Clean(values: seq<Cell>): seq<Cell>
  {
    Filter(values, Present)
  }

  /** `float(v)` succeeds and is finite. */
  predicate IsNumeric(c: Cell)
  {
    Float(c).Some?
  }

  /** `datetime.fromisoformat(s)` succeeds. */
  const IsoDateParses: string -> bool

  /** `re.search` finds one of the two date patterns
      `\d{1,4}[-/]\d{1,2}[-/]\d{1,4}` or `\d{1,2}[-/]\d{1,2}[-/]\d{2,4}`. */
  const DateTextMatches: string -> bool

  /** A value counted as a date: its text parses as an ISO date once `/` is
      replaced by `-`, or it contains a date-like pattern. */
  predicate IsDateLike(c: Cell)
  {
    IsoDateParses(ReplaceChar(StrOf(c), '/', '-')) || DateTextMatches(StrOf(c))
  }

  /** The classification, tests in priority order, with the ratios written
      exactly over the integers: numeric when more than 80% of the present
      values are numbers, else datetime when more than 60% look like dates,
      else categorical when fewer than 10% of them and fewer than 20 are
      distinct, else text. No present value at all means text. */
  function ColumnType(values: seq<Cell>): DataType
  {
    var clean := Clean(values);
    var n := |clean|;
    var u := |Seen(clean, Key)|;
    if n == 0 then Text
    else if 5 * |Filter(clean, IsNumeric)| > 4 * n then Numeric
    else if 5 * |Filter(clean, IsDateLike)| > 3 * n then DateTime
    else if 10 * u < n && u < 20 then Categorical
    else Text
  }

  /** A ratio test on reals, `k / n > t` or `k / n < t` with `t = p / q`,
      is the integer comparison `ColumnType` states. */
  lemma RatioCompare(k: int, n: int, t: real, p: int, q: int)
    requires n > 0 && q > 0 && t * q as real == p as real
    ensures k as real / n as real > t <==> q * k > p * n
    ensures k as real / n as real < t <==> q * k < p * n
  {
    var r := k as real / n as real;
    assert r * n as real == k as real;
    Scale(r, t, n as real, q as real, k as real, p as real);
    RealProduct(q, k);
    RealProduct(p, n);
  }

  /** `numeric_count / n > 0.8` */
  lemma NumericThreshold(k: int, n: int)
    requires n > 0
    ensures k as real / n as real > 0.8 <==> 5 * k > 4 * n
  {
    RatioCompare(k, n, 0.8, 4, 5);
  }

  /** `date_count / n > 0.6` */
  lemma DateThreshold(k: int, n: int)
    requires n > 0
    ensures k as real / n as real > 0.6 <==> 5 * k > 3 * n
  {
    RatioCompare(k, n, 0.6, 3, 5);
  }

  /** `unique_values / n < 0.1` */
  lemma UniqueThreshold(k: int, n: int)
    requires n > 0
    ensures k as real / n as real < 0.1 <==> 10 * k < n
  {
    RatioCompare(k, n, 0.1, 1, 10);
  }

  /** Cross-multiplying two fractions with positive denominators keeps
      their order. */
  lemma Scale(r: real, t: real, n: real, q: real, k: real, p: real)
    requires n > 0.0 && q > 0.0 && r * n == k && t * q == p
    ensures r > t <==> k * q > p * n
    ensures r < t <==> k * q < p * n
  {
    var m := n * q;
    assert k * q == r * m && p * n == t * m;
    assert m > 0.0;
    if r > t {
      assert r * m > t * m;
    }
    if r < t {
      assert r * m < t * m;
    }
    if r == t {
      assert r * m == t * m;
    }
  }

  lemma RealProduct(a: int, b: int)
    ensures (a * b) as real == a as real * b as real
  {
  }

  /** The counting loop of `detect_column_type`: how many of `clean`
      satisfy `p`. */
  method CountWhere(clean: seq<Cell>, p: Cell -> bool) returns (count: nat)
    ensures count == |Filter(clean, p)|
  {
    count := 0;
    var i := 0;
    while i < |clean|
      invariant 0 <= i <= |clean|
      invariant count == |Filter(clean[..i], p)|
    {
      assert clean[..i + 1][..i] == clean[..i];
      if p(clean[i]) {
        count := count + 1;
      }
      i := i + 1;
    }
    assert clean[..i] == clean;
  }

  /** `detect_column_type`: drop the missing values, count the numeric
      ones, then the date-like ones, then the distinct ones, and compare
      each ratio with its threshold in turn. */
  method DetectColumnType(values: seq<Cell>) returns (t: DataType)
    ensures t == ColumnType(values)
  {
    var clean := Clean(values);
    if clean == [] {
      return Text;
    }
    var n := |clean|;
    var numericCount := CountWhere(clean, IsNumeric);
    NumericThreshold(numericCount, n);
    if numericCount as real / n as real > 0.8 {
      return Numeric;
    }
    var dateCount := CountWhere(clean, IsDateLike);
    DateThreshold(dateCount, n);
    if dateCount as real / n as real > 0.6 {
      return DateTime;
    }
    var uniqueValues := |Seen(clean, Key)|;
    UniqueThreshold(uniqueValues, n);
    if uniqueValues as real / n as real < 0.1 && uniqueValues < 20 {
      return Categorical;
    }
    return Text;
  }

  /** A column with no present value, the empty column included, is text. */
  lemma {:induction false} AllMissingIsText(values: seq<Cell>)
    requires forall i :: 0 <= i < |values| ==> IsMissing(values[i])
    ensures ColumnType(values) == Text
  {
    FilterDropsAll(values, Present);
  }

  /** Missing values take no part in the classification. */
  lemma {:induction false} ColumnTypeIgnoresMissing(values: seq<Cell>)
    ensures ColumnType(Clean(values)) == ColumnType(values)
  {
    FilterIdempotent(values, Present);
  }

  /** The classification depends on the values, not on the row order. */
  lemma {:induction false} ColumnTypePermutation(a: seq<Cell>, b: seq<Cell>)
    requires multiset(a) == multiset(b)
    ensures ColumnType(a) == ColumnType(b)
  {
    FilterPermutation(a, b, Present);
    var ca, cb := Clean(a), Clean(b);
    FilterPermutation(ca, cb, IsNumeric);
    FilterPermutation(ca, cb, IsDateLike);
    SeenPermutation(ca, cb, Key);
    assert |ca| == |multiset(ca)| && |cb| == |multiset(cb)|;
    assert |Filter(ca, IsNumeric)| == |multiset(Filter(ca, IsNumeric))|;
    assert |Filter(cb, IsNumeric)| == |multiset(Filter(cb, IsNumeric))|;
    assert |Filter(ca, IsDateLike)| == |multiset(Filter(ca, IsDateLike))|;
    assert |Filter(cb, IsDateLike)| == |multiset(Filter(cb, IsDateLike))|;
  }

  /** A column whose present values are all numbers, and that has one, is
      numeric. */
  lemma {:induction false} AllNumericIsNumeric(values: seq<Cell>)
    requires exists i :: 0 <= i < |values| && Present(values[i])
    requires forall i :: 0 <= i < |values| && Present(values[i]) ==> IsNumeric(values[i])
    ensures ColumnType(values) == Numeric
  {
    var clean := Clean(values);
    FilterMembership(values, Present);
    FilterSatisfies(values, Present);
    forall j | 0 <= j < |clean| ensures IsNumeric(clean[j])
    {
      assert clean[j] in values;
    }
    FilterKeepsAll(clean, IsNumeric);
    var i :| 0 <= i < |values| && Present(values[i]);
    assert values[i] in clean;
  }

  /** `safe_parse_number`: `None` for a missing value or one `float()`
      rejects or finds infinite. */
  function SafeParseNumber(c: Cell): (r: Option<real>)
    ensures IsMissing(c) ==> r == None
  {
    if c == Null || c == Str("") then None else Float(c)
  }

  /** A value counts as numeric for the classification exactly when the
      safe parser accepts it. */
  lemma {:induction false} SafeParseAgrees(c: Cell)
    ensures SafeParseNumber(c).Some? <==> IsNumeric(c)
    ensures c.Num? ==> SafeParseNumber(c) == Some(c.x)
  {
  }

  /** `[v for v in map(safe_parse_number, values) if v is not None]` */
  function Parsed(values: seq<Cell>): (r: seq<real>)
    ensures |r| == |Filter(values, IsNumeric)|
  {
    if values == [] then []
    else
      var last := SafeParseNumber(values[|values| - 1]);
      Parsed(values[..|values| - 1]) + (if last.Some? then [last.value] else [])
  }

  /** `[row.get(name) for row in rows]` */
  function ColumnValues(rows: seq<Row>, name: string): (vs: seq<Cell>)
    ensures |vs| == |rows|
    ensures forall i :: 0 <= i < |rows| ==> vs[i] == Get(rows[i], name)
  {
    seq(|rows|, i requires 0 <= i < |rows| => Get(rows[i], name))
  }

  /** `sum(1 for v in values if v is None or v == '')` */
  function MissingCount(values: seq<Cell>): nat
  {
    |Filter(values, IsMissing)|
  }

  /** `len(set(v for v in values if v is not None and v != ''))` */
  function UniqueCount(values: seq<Cell>): nat
  {
    |Seen(Clean(values), Key)|
  }

  /** Missing and distinct present values together never outnumber the
      values. */
  lemma {:induction false} MissingUniqueBound(values: seq<Cell>)
    ensures MissingCount(values) + UniqueCount(values) <= |values|
  {
    FilterComplement(values, IsMissing, Present);
    DistinctByProps(Clean(values), Key);
    SubseqOfMultiset(DistinctBy(Clean(values), Key), Clean(values));
  }

  /** The column `name` of `rows`, analysed. */
  function AnalyzeColumn(rows: seq<Row>, name: string): DataColumn
  {
    var values := ColumnValues(rows, name);
    DataColumn(name, ColumnType(values), values, MissingCount(values), UniqueCount(values))
  }

  /** `len(json.dumps(rows).encode('utf-8'))` */
  const SerializedSize: seq<Row> -> nat

  /** `analyze_dataset`: no rows give an empty dataset; otherwise one
      column per key of the first row, in its order. */
  function Analyze(rows: seq<Row>, filename: string): Dataset
  {
    if rows == [] then Dataset(filename, [], [], 0, 0, 0)
    else
      var names := rows[0].keys;
      Dataset(filename, rows, AnalyzeColumns(rows, names), |rows|, |names|, SerializedSize(rows))
  }

  /** One analysed column per name, in order. */
  function AnalyzeColumns(rows: seq<Row>, names: seq<string>): (cols: seq<DataColumn>)
    ensures |cols| == |names|
    ensures forall j :: 0 <= j < |names| ==> cols[j] == AnalyzeColumn(rows, names[j])
  {
    seq(|names|, j requires 0 <= j < |names| => AnalyzeColumn(rows, names[j]))
  }

  lemma AnalyzeColumnsStep(rows: seq<Row>, names: seq<string>, j: nat)
    requires j < |names|
    ensures AnalyzeColumns(rows, names[..j + 1]) == AnalyzeColumns(rows, names[..j]) + [AnalyzeColumn(rows, names[j])]
  {
    var a, b := AnalyzeColumns(rows, names[..j + 1]), AnalyzeColumns(rows, names[..j]) + [AnalyzeColumn(rows, names[j])];
    assert |a| == |b|;
    forall k | 0 <= k < |a| ensures a[k] == b[k] {
      assert names[..j + 1][k] == names[k];
    }
  }

  /** `analyze_dataset` as the loop over the first row's keys. */
  method AnalyzeDataset(rows: seq<Row>, filename: string) returns (ds: Dataset)
    ensures ds == Analyze(rows, filename)
  {
    if rows == [] {
      return Dataset(filename, [], [], 0, 0, 0);
    }
    var names := rows[0].keys;
    var columns: seq<DataColumn> := [];
    var j := 0;
    while j < |names|
      invariant 0 <= j <= |names|
      invariant columns == AnalyzeColumns(rows, names[..j])
    {
      var column := BuildColumn(rows, names[j]);
      AnalyzeColumnsStep(rows, names, j);
      columns := columns + [column];
      j := j + 1;
    }
    assert names[..j] == names;
    ds := Dataset(filename, rows, columns, |rows|, |names|, SerializedSize(rows));
  }

  /** The body of the loop in `analyze_dataset`: one column's values, type
      and counts. */
  method BuildColumn(rows: seq<Row>, name: string) returns (column: DataColumn)
    ensures column == AnalyzeColumn(rows, name)
  {
    var values := ColumnValues(rows, name);
    var dataType := DetectColumnType(values);
    column := DataColumn(name, dataType, values, MissingCount(values), UniqueCount(values));
  }

  /** The shape `analyze_dataset` promises: no rows give zero totals and
      no columns under the given name; otherwise the columns are the first
      row's keys in order, each with one value per row (`None` where the
      row lacks the key), the totals count rows and columns, and no column
      has more missing plus distinct values than there are rows. */
  lemma {:induction false} AnalyzeShape(rows: seq<Row>, filename: string)
    ensures var ds := Analyze(rows, filename);
      && ds.name == filename && ds.rows == rows
      && ds.totalRows == |rows| && ds.totalColumns == |ds.columns|
      && (rows == [] ==> ds.columns == [] && ds.memoryUsage == 0)
      && (rows != [] ==> |ds.columns| == |rows[0].keys|)
      && (forall j :: 0 <= j < |ds.columns| ==>
            && rows != [] && ds.columns[j].name == rows[0].keys[j]
            && |ds.columns[j].values| == |rows|
            && (forall i :: 0 <= i < |rows| ==> ds.columns[j].values[i] == Get(rows[i], ds.columns[j].name))
            && ds.columns[j].missingCount + ds.columns[j].uniqueCount <= ds.totalRows)
  {
    var ds := Analyze(rows, filename);
    forall j | 0 <= j < |ds.columns|
      ensures ds.columns[j].missingCount + ds.columns[j].uniqueCount <= ds.totalRows
    {
      MissingUniqueBound(ds.columns[j].values);
    }
  }

  /** Strictly outside the fence. */
  predicate Outside(b: (real, real), v: real)
  {
    v < b.0 || v > b.1
  }

  /** The test `v < lower_bound or v > upper_bound` as a predicate. */
  function OutsideFence(b: (real, real)): real -> bool
  {
    v => Outside(b, v)
  }

  /** `detect_outliers`: the values strictly outside the IQR fence, in
      their original order. */
  function DetectOutliers(values: seq<real>): seq<real>
  {
    if values == [] then [] else Filter(values, OutsideFence(IqrBounds(values)))
  }

  /** The outliers are an order-preserving selection of the values: exactly
      those strictly below `q1 - 1.5*iqr` or above `q3 + 1.5*iqr`. */
  lemma {:induction false} DetectOutliersSpec(values: seq<real>)
    ensures SubseqOf(DetectOutliers(values), values)
    ensures values == [] ==> DetectOutliers(values) == []
    ensures values != [] ==> forall v :: v in DetectOutliers(values) <==> v in values && Outside(IqrBounds(values), v)
  {
    if values == [] {
      SubseqOfRefl(values);
    } else {
      var b := IqrBounds(values);
      FilterIsSubseq(values, OutsideFence(b));
      FilterMembership(values, OutsideFence(b));
    }
  }

  /** A constant sample has no outliers: its fence is the value itself. */
  lemma {:induction false} ConstantHasNoOutliers(values: seq<real>)
    requires Constant(values)
    ensures DetectOutliers(values) == []
  {
    if values != [] {
      var b := IqrBounds(values);
      SortedEnds(values);
      FivePointsOrdered(values);
      assert Min(values) == Max(values) by {
        assert Min(values) in values && Max(values) in values;
      }
      FilterDropsAll(values, OutsideFence(b));
    }
  }

  /** `[1, 2, 3, 4, 5]`: `q1 = 2`, `q3 = 4`, fence `[-1, 7]`, no outlier. */
  lemma {:induction false} OutliersExample(s: seq<real>)
    requires s == [1.0, 2.0, 3.0, 4.0, 5.0]
    ensures DetectOutliers(s) == []
  {
    ExampleFence(s);
    InsideExampleFence(s, IqrBounds(s));
    FilterDropsAll(s, OutsideFence(IqrBounds(s)));
  }

  lemma InsideExampleFence(s: seq<real>, b: (real, real))
    requires s == [1.0, 2.0, 3.0, 4.0, 5.0] && b == (-1.0, 7.0)
    ensures forall i :: 0 <= i < |s| ==> !OutsideFence(b)(s[i])
  {
  }

  lemma ExampleFence(s: seq<real>)
    requires s == [1.0, 2.0, 3.0, 4.0, 5.0]
    ensures IqrBounds(s) == (-1.0, 7.0)
  {
    ChainOrdered(s);
    SortedIdentity(s);
    assert LowerQuartile(s) == 2.0 && UpperQuartile(s) == 4.0;
  }

  /** `calculate_correlation`: Pearson's r, or `0.0` when the lengths
      differ, there is no value, or the denominator
      `sqrt((n*Σx² - (Σx)²) * (n*Σy² - (Σy)²))` is zero. */
  function Correlation(x: seq<real>, y: seq<real>): real
  {
    if |x| != |y| || |x| == 0 then 0.0
    else
      Quotient(CoSpread(Zip(x, y)), Sqrt(Spread(x) * Spread(y)))
  }

  /** `numerator / denominator if denominator != 0 else 0.0` */
  function Quotient(numerator: real, denominator: real): real
  {
    if denominator != 0.0 then numerator / denominator else 0.0
  }

  /** The guard cases: mismatched or empty input, or a constant column on
      either side, give `0.0`. */
  lemma {:induction false} CorrelationGuards(x: seq<real>, y: seq<real>)
    ensures |x| != |y| || |x| == 0 ==> Correlation(x, y) == 0.0
    ensures Constant(x) || Constant(y) ==> Correlation(x, y) == 0.0
  {
    if |x| == |y| && |x| != 0 && (Constant(x) || Constant(y)) {
      FlatDenominator(x, y);
    }
  }

  /** A constant column makes the denominator of Pearson's r zero. */
  lemma FlatDenominator(x: seq<real>, y: seq<real>)
    requires Constant(x) || Constant(y)
    ensures Sqrt(Spread(x) * Spread(y)) == 0.0
  {
    var sx, sy := Spread(x), Spread(y);
    assert sx == 0.0 || sy == 0.0 by {
      SpreadZero(x);
      SpreadZero(y);
    }
    ZeroFactor(sx, sy, sx * sy);
  }

  lemma ZeroFactor(a: real, b: real, p: real)
    requires p == a * b && (a == 0.0 || b == 0.0)
    ensures p == 0.0
  {
  }

  /** Pearson's r does not depend on which column comes first. */
  lemma {:induction false} CorrelationSymmetric(x: seq<real>, y: seq<real>)
    ensures Correlation(x, y) == Correlation(y, x)
  {
    if |x| == |y| && |x| != 0 {
      CoSpreadSwap(x, y);
      var sx, sy := Spread(x), Spread(y);
      Commute(sx, sy);
    }
  }

  lemma {:induction false} CoSpreadSwap(x: seq<real>, y: seq<real>)
    requires |x| == |y|
    ensures CoSpread(Zip(x, y)) == CoSpread(Zip(y, x))
  {
    var p, q := Zip(x, y), Zip(y, x);
    assert Map(p, Prod) == Map(q, Prod) by {
      forall i | 0 <= i < |x| ensures Map(p, Prod)[i] == Map(q, Prod)[i] {
        Commute(x[i], y[i]);
      }
    }
    var tx, ty := Sum(x), Sum(y);
    Commute(tx, ty);
  }

  lemma Commute(a: real, b: real)
    ensures a * b == b * a
  {
  }

  /** `calculate_basic_stats`: nothing for no values; otherwise mean,
      median, extremes, sample deviation and variance (zero for a single
      value) and the five summary points. */
  function BasicStats(values: seq<real>): Option<ColumnStats>
  {
    if values == [] then None
    else
      var std := if |values| > 1 then StdDev(values) else 0.0;
      var variance := if |values| > 1 then Variance(values) else 0.0;
      var quartiles := [Min(values), LowerQuartile(values), Median(values), UpperQuartile(values), Max(values)];
      Some(ColumnStats(Mean(values), Median(values), None, Min(values), Max(values), std, variance, quartiles, None))
  }

  /** Statistics exist exactly for a non-empty sample; the median and the
      mean lie between the extremes and the five summary points are in
      order, from the minimum through the median to the maximum. */
  lemma {:induction false} BasicStatsOrder(values: seq<real>)
    ensures BasicStats(values).Some? <==> values != []
    ensures values != [] ==>
      var st := BasicStats(values).value;
      && st.minVal <= st.median <= st.maxVal
      && st.minVal <= st.mean <= st.maxVal
      && |st.quartiles| == 5
      && st.quartiles[0] <= st.quartiles[1] <= st.quartiles[2] <= st.quartiles[3] <= st.quartiles[4]
      && st.quartiles[0] == st.minVal && st.quartiles[2] == st.median && st.quartiles[4] == st.maxVal
  {
    if values != [] {
      FivePointsOrdered(values);
      MeanBetween(values);
    }
  }

  lemma ChainOrdered(q: seq<real>)
    requires |q| == 5 && q[0] <= q[1] <= q[2] <= q[3] <= q[4]
    ensures forall i, j :: 0 <= i <= j < 5 ==> q[i] <= q[j]
  {
  }

  /** Spread is never negative, is zero for a single value, and is zero
      exactly for a constant sample. */
  lemma {:induction false} BasicStatsSpread(values: seq<real>)
    requires values != []
    ensures var st := BasicStats(values).value;
      && st.std >= 0.0 && st.variance >= 0.0
      && (|values| == 1 ==> st.std == 0.0 && st.variance == 0.0)
      && (st.std == 0.0 <==> Constant(values))
      && (st.variance == 0.0 <==> Constant(values))
  {
    var st := BasicStats(values).value;
    if |values| > 1 {
      VarianceZero(values);
      StdDevPositive(values);
      assert st.std == StdDev(values) && st.variance == Variance(values);
    } else {
      assert st.std == 0.0 && st.variance == 0.0;
      assert Constant(values);
    }
  }

  /** `len(json.dumps(row, sort_keys=True))`-style identity of rows is
      modelled as Python row equality. */
  function DistinctRows(rows: seq<Row>): nat
  {
    |Seen(rows, EqClass)|
  }

  /** `v != v.strip() or re.search(r'\s{2,}', v)` */
  predicate TextIssue(v: string)
  {
    v != Strip(v) || HasWhitespaceRun(v)
  }

  predicate IsTextual(col: DataColumn)
  {
    col.dtype == Text || col.dtype == Categorical
  }

  /** A text or categorical column holding a string with surrounding
      whitespace or a whitespace run. */
  predicate HasTextIssues(col: DataColumn)
  {
    IsTextual(col) && exists i :: 0 <= i < |col.values| && col.values[i].Str? && TextIssue(col.values[i].s)
  }

  /** The outliers a column contributes to the profile. */
  function ColumnOutliers(col: DataColumn): int
  {
    if col.dtype == Numeric then |DetectOutliers(Parsed(col.values))| else 0
  }

  function MissingOf(col: DataColumn): int
  {
    col.missingCount
  }

  /** `(part / whole) * 100`, or `0` when `whole` is zero. */
  function Percent(part: int, whole: int): real
  {
    if whole > 0 then (part as real / whole as real) * 100.0 else 0.0
  }

  function Info(col: DataColumn, totalRows: nat): ColumnInfo
  {
    ColumnInfo(col.name, col.dtype.Name(), col.uniqueCount, col.missingCount,
               Percent(totalRows - col.missingCount, totalRows))
  }

  /** `generate_data_profile` as a value. */
  function Profile(ds: Dataset): DataProfile
  {
    var totalCells := ds.totalRows * ds.totalColumns;
    var totalMissing := SumOf(ds.columns, MissingOf);
    SumOfNonNegative(ds.columns, MissingOf);
    SumOfNonNegative(ds.columns, ColumnOutliers);
    var quality := DataQualityIssues(ds.totalRows - DistinctRows(ds.rows), totalMissing as nat,
                                     SumOf(ds.columns, ColumnOutliers) as nat, 0,
                                     |Filter(ds.columns, HasTextIssues)|);
    var overview := Overview(ds.totalRows, ds.totalColumns, ds.memoryUsage,
                             Percent(totalCells - totalMissing, totalCells));
    var infos := seq(|ds.columns|, j requires 0 <= j < |ds.columns| => Info(ds.columns[j], ds.totalRows));
    DataProfile(overview, quality, infos)
  }

  lemma {:induction false} SumOfNonNegative(cols: seq<DataColumn>, w: DataColumn -> int)
    requires forall c :: w(c) >= 0
    ensures SumOf(cols, w) >= 0
  {
    if cols != [] {
      SumOfNonNegative(cols[..|cols| - 1], w);
    }
  }

  /** The outlier loop of `generate_data_profile`: numeric columns add the
      number of outliers among their parsed values. */
  method CountOutliers(cols: seq<DataColumn>) returns (count: int)
    ensures count == SumOf(cols, ColumnOutliers)
  {
    count := 0;
    var i := 0;
    while i < |cols|
      invariant 0 <= i <= |cols|
      invariant count == SumOf(cols[..i], ColumnOutliers)
    {
      assert cols[..i + 1][..i] == cols[..i];
      if cols[i].dtype == Numeric {
        var validValues := Parsed(cols[i].values);
        count := count + |DetectOutliers(validValues)|;
      }
      i := i + 1;
    }
    assert cols[..|cols|] == cols;
  }

  /** The text-issue loop of `generate_data_profile`: text and categorical
      columns holding a badly spaced string are counted once each. */
  method CountTextIssues(cols: seq<DataColumn>) returns (count: nat)
    ensures count == |Filter(cols, HasTextIssues)|
  {
    count := 0;
    var i := 0;
    while i < |cols|
      invariant 0 <= i <= |cols|
      invariant count == |Filter(cols[..i], HasTextIssues)|
    {
      assert cols[..i + 1][..i] == cols[..i];
      if IsTextual(cols[i]) {
        var hasIssues := exists k :: 0 <= k < |cols[i].values| && cols[i].values[k].Str? && TextIssue(cols[i].values[k].s);
        if hasIssues {
          count := count + 1;
        }
      }
      i := i + 1;
    }
    assert cols[..|cols|] == cols;
  }

  /** The `columns` list of the profile, one entry per column. */
  method ColumnInfos(cols: seq<DataColumn>, totalRows: nat) returns (infos: seq<ColumnInfo>)
    ensures |infos| == |cols|
    ensures forall k :: 0 <= k < |cols| ==> infos[k] == Info(cols[k], totalRows)
  {
    infos := [];
    var i := 0;
    while i < |cols|
      invariant 0 <= i <= |cols|
      invariant |infos| == i
      invariant forall k :: 0 <= k < i ==> infos[k] == Info(cols[k], totalRows)
    {
      infos := infos + [Info(cols[i], totalRows)];
      i := i + 1;
    }
  }

  /** `generate_data_profile`: the outlier and text-issue counts and the
      per-column entries are accumulated column by column. */
  method GenerateDataProfile(ds: Dataset) returns (p: DataProfile)
    ensures p == Profile(ds)
  {
    var totalCells := ds.totalRows * ds.totalColumns;
    var totalMissing := SumOf(ds.columns, MissingOf);
    var completeness := Percent(totalCells - totalMissing, totalCells);
    var duplicates := ds.totalRows - DistinctRows(ds.rows);
    var outliersCount := CountOutliers(ds.columns);
    var textIssues := CountTextIssues(ds.columns);
    SumOfNonNegative(ds.columns, MissingOf);
    SumOfNonNegative(ds.columns, ColumnOutliers);
    var quality := DataQualityIssues(duplicates, totalMissing as nat, outliersCount as nat, 0, textIssues);
    var overview := Overview(ds.totalRows, ds.totalColumns, ds.memoryUsage, completeness);
    var columnsInfo := ColumnInfos(ds.columns, ds.totalRows);
    p := DataProfile(overview, quality, columnsInfo);
  }

  /** What the profile promises for any dataset: zero completeness when
      there are no cells, zero per-column completeness when there are no
      rows, no more flagged text columns than text and categorical
      columns, no type inconsistencies reported, and never a negative
      duplicate count when the row total is right. */
  lemma {:induction false} ProfileProps(ds: Dataset)
    ensures ds.totalRows * ds.totalColumns == 0 ==> Profile(ds).overview.completeness == 0.0
    ensures ds.totalRows == 0 ==> forall j :: 0 <= j < |Profile(ds).columns| ==> Profile(ds).columns[j].completeness == 0.0
    ensures Profile(ds).quality.textIssues <= |Filter(ds.columns, IsTextual)|
    ensures Profile(ds).quality.inconsistentTypes == 0
    ensures ds.totalRows == |ds.rows| ==> Profile(ds).quality.duplicates >= 0
  {
    FilterMonotone(ds.columns, HasTextIssues, IsTextual);
    DistinctByProps(ds.rows, EqClass);
    SubseqOfMultiset(DistinctBy(ds.rows, EqClass), ds.rows);
  }

  lemma {:induction false} MissingTotalBound(cols: seq<DataColumn>, rows: nat)
    requires forall j :: 0 <= j < |cols| ==> cols[j].missingCount <= rows
    ensures 0 <= SumOf(cols, MissingOf) <= |cols| * rows
  {
    if cols != [] {
      MissingTotalBound(cols[..|cols| - 1], rows);
    }
  }

  lemma {:induction false} PercentBounds(part: int, whole: int)
    requires 0 <= part <= whole
    ensures 0.0 <= Percent(part, whole) <= 100.0
  {
    if whole > 0 {
      DivBetween(part as real, whole as real, 0.0, 1.0);
    }
  }

  /** A column entry's completeness is a percentage when the column misses
      no more values than there are rows. */
  lemma InfoBounds(col: DataColumn, totalRows: nat)
    requires col.missingCount <= totalRows
    ensures 0.0 <= Info(col, totalRows).completeness <= 100.0
  {
    PercentBounds(totalRows - col.missingCount, totalRows);
  }

  /** Overall completeness is a percentage when no column misses more
      values than there are rows. */
  lemma {:induction false} OverviewBounds(ds: Dataset)
    requires |ds.columns| == ds.totalColumns
    requires forall j :: 0 <= j < |ds.columns| ==> ds.columns[j].missingCount <= ds.totalRows
    ensures 0.0 <= Profile(ds).overview.completeness <= 100.0
  {
    var cells := ds.totalRows * ds.totalColumns;
    var missing := SumOf(ds.columns, MissingOf);
    MissingTotalBound(ds.columns, ds.totalRows);
    assert |ds.columns| * ds.totalRows == cells;
    assert Profile(ds).overview.completeness == Percent(cells - missing, cells);
    PercentBounds(cells - missing, cells);
  }

  /** The profile of an analysed dataset: completeness, overall and per
      column, is a percentage, and the duplicate count is the number of
      rows that repeat an earlier one. */
  lemma {:induction false} ProfileOfAnalyzed(rows: seq<Row>, filename: string)
    ensures var p := Profile(Analyze(rows, filename));
      && 0.0 <= p.overview.completeness <= 100.0
      && (forall j :: 0 <= j < |p.columns| ==> 0.0 <= p.columns[j].completeness <= 100.0)
      && p.quality.duplicates == |rows| - |DistinctBy(rows, EqClass)|
      && p.quality.duplicates >= 0
  {
    var ds := Analyze(rows, filename);
    var p := Profile(ds);
    AnalyzeShape(rows, filename);
    OverviewBounds(ds);
    forall j | 0 <= j < |p.columns|
      ensures 0.0 <= p.columns[j].completeness <= 100.0
    {
      assert p.columns[j] == Info(ds.columns[j], ds.totalRows);
      InfoBounds(ds.columns[j], ds.totalRows);
    }
    DistinctByProps(rows, EqClass);
    SubseqOfMultiset(DistinctBy(rows, EqClass), rows);
  }

  /** `get_column_icon`, looked up by the type's name; any other name gets
      the question mark. */
  function ColumnIcon(typeName: string): string
  {
    if typeName == "numeric" then "\U{1F522}"
    else if typeName == "categorical" then "\U{1F3F7}\U{FE0F}"
    else if typeName == "datetime" then "\U{1F4C5}"
    else if typeName == "text" then "\U{1F4DD}"
    else "\U{2753}"
  }

  /** Each of the four types has its own icon, none of them the fallback. */
  lemma {:induction false} ColumnIconsDistinct(a: DataType, b: DataType)
    ensures a != b ==> ColumnIcon(a.Name()) != ColumnIcon(b.Name())
    ensures ColumnIcon(a.Name()) != "\U{2753}"
  {
  }
}
