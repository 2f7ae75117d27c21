/** `ChartDataGenerator` and `export_chart_data`: chart points drawn from
    the first rows of a dataset, pie slices from value counts, a cyclic
    colour palette, chart configurations and their validation, chart
    recommendations, and the CSV export of chart data. The generator only
    reads its dataset, so its operations take the dataset (or its rows and
    columns) as a parameter. */
module Visualization {
  import opened Values
  import opened Rows
  import opened Strings
  import opened Seqs
  import opened Sorting
  import opened Counting
  import opened Types
  import opened DataUtils
  import opened Analytics

  // ---------------------------------------------------------------------
  // Bar, line and scatter points
  // ---------------------------------------------------------------------

  /** One chart point: the columns it was drawn from and its two
      coordinates. */
  datatype Point = Point(xColumn: string, yColumn: string, x: Cell, y: Cell)
  {
    /** The point dictionary `{'x': x, 'y': y, xColumn: x, yColumn: y}`; a
        column named like an earlier key overwrites that key's value in
        place, as in a dictionary display. */
    function Dict(): Row
    {
      Set(Set(Set(Set(Row([], map[]), "x", x), "y", y), xColumn, x), yColumn, y)
    }
  }

  /** The dictionary holds `y` under the y column, and `x` under the x
      column unless the two columns coincide; under the keys `x` and `y`
      it holds the coordinates unless a column of that name overwrote
      them. */
  lemma PointDict(p: Point)
    ensures Get(p.Dict(), p.yColumn) == p.y
    ensures p.xColumn != p.yColumn ==> Get(p.Dict(), p.xColumn) == p.x
    ensures p.xColumn != "x" && p.yColumn != "x" ==> Get(p.Dict(), "x") == p.x
    ensures p.xColumn != "y" && p.yColumn != "y" ==> Get(p.Dict(), "y") == p.y
    ensures p.yColumn == "x" ==> Get(p.Dict(), "x") == p.y
    ensures p.xColumn == "y" && p.yColumn != "y" ==> Get(p.Dict(), "y") == p.x
  {
  }

  /** The keys of the point dictionary are `x`, `y` and the two column
      names, each once. */
  lemma PointDictKeys(p: Point)
    ensures p.Dict().cells.Keys == {"x", "y", p.xColumn, p.yColumn}
    ensures WellFormed(p.Dict())
  {
  }

  /** A row the bar chart keeps: both values are not `None` and `float(y)`
      succeeds. */
  predicate BarRow(r: Row, xColumn: string, yColumn: string)
  {
    Get(r, xColumn) != Null && Get(r, yColumn) != Null && Float(Get(r, yColumn)).Some?
  }

  function BarKeeps(xColumn: string, yColumn: string): Row -> bool
  {
    r => BarRow(r, xColumn, yColumn)
  }

  /** The bar point of a kept row: `x` unchanged, `y` as a number. */
  function BarPointOf(r: Row, xColumn: string, yColumn: string): Point
  {
    var y := Float(Get(r, yColumn));
    Point(xColumn, yColumn, Get(r, xColumn), if y.Some? then Num(y.value) else Null)
  }

  function BarPoint(xColumn: string, yColumn: string): Row -> Point
  {
    r => BarPointOf(r, xColumn, yColumn)
  }

  /** `generate_bar_chart_data` as a value: the points of the kept rows
      among `rows[:limit]`, in row order. */
  function BarData(rows: seq<Row>, xColumn: string, yColumn: string, limit: int): seq<Point>
  {
    Map(Filter(PyPrefix(rows, limit), BarKeeps(xColumn, yColumn)), BarPoint(xColumn, yColumn))
  }

  /** `generate_bar_chart_data` */
  method BarChartData(rows: seq<Row>, xColumn: string, yColumn: string, limit: int) returns (data: seq<Point>)
    ensures data == BarData(rows, xColumn, yColumn, limit)
  {
    var first := PyPrefix(rows, limit);
    data := [];
    for i := 0 to |first|
      invariant data == Map(Filter(first[..i], BarKeeps(xColumn, yColumn)), BarPoint(xColumn, yColumn))
    {
      var row := first[i];
      var xVal := Get(row, xColumn);
      var yVal := Get(row, yColumn);
      FilterMapStep(first, i, BarKeeps(xColumn, yColumn), BarPoint(xColumn, yColumn));
      if xVal != Null && yVal != Null {
        var yNumeric := Float(yVal);
        if yNumeric.Some? {
          data := data + [Point(xColumn, yColumn, xVal, Num(yNumeric.value))];
        }
      }
    }
    assert first[..|first|] == first;
  }

  /** `generate_line_chart_data`: the bar chart's points. */
  method LineChartData(rows: seq<Row>, xColumn: string, yColumn: string, limit: int) returns (data: seq<Point>)
    ensures data == BarData(rows, xColumn, yColumn, limit)
  {
    data := BarChartData(rows, xColumn, yColumn, limit);
  }

  /** Only `rows[:limit]` is read, so there are at most `limit` points
      (for a limit of at least 0) and never more than rows; every point
      comes from one of those rows whose x is not `None` and whose y
      parses, and holds that x unchanged and that y as a number. */
  lemma BarDataSpec(rows: seq<Row>, xColumn: string, yColumn: string, limit: int)
    ensures |BarData(rows, xColumn, yColumn, limit)| <= |rows|
    ensures limit >= 0 ==> |BarData(rows, xColumn, yColumn, limit)| <= limit
    ensures forall p :: p in BarData(rows, xColumn, yColumn, limit) ==>
      exists r :: && r in PyPrefix(rows, limit) && BarRow(r, xColumn, yColumn)
                  && p == Point(xColumn, yColumn, Get(r, xColumn), Num(Float(Get(r, yColumn)).value))
  {
    var first := PyPrefix(rows, limit);
    var kept := Filter(first, BarKeeps(xColumn, yColumn));
    FilterMembership(first, BarKeeps(xColumn, yColumn));
    forall p | p in BarData(rows, xColumn, yColumn, limit)
      ensures exists r :: && r in first && BarRow(r, xColumn, yColumn)
                          && p == Point(xColumn, yColumn, Get(r, xColumn), Num(Float(Get(r, yColumn)).value))
    {
      var k :| 0 <= k < |kept| && p == BarPointOf(kept[k], xColumn, yColumn);
      assert kept[k] in kept;
    }
  }

  /** A row the scatter plot keeps: both values are not `None` and both
      parse as numbers. */
  predicate ScatterRow(r: Row, xColumn: string, yColumn: string)
  {
    Get(r, xColumn) != Null && Get(r, yColumn) != Null && Float(Get(r, xColumn)).Some? && Float(Get(r, yColumn)).Some?
  }

  function ScatterKeeps(xColumn: string, yColumn: string): Row -> bool
  {
    r => ScatterRow(r, xColumn, yColumn)
  }

  /** The scatter point of a kept row: both coordinates as numbers. */
  function ScatterPointOf(r: Row, xColumn: string, yColumn: string): Point
  {
    var x := Float(Get(r, xColumn));
    var y := Float(Get(r, yColumn));
    Point(xColumn, yColumn, if x.Some? then Num(x.value) else Null, if y.Some? then Num(y.value) else Null)
  }

  function ScatterPoint(xColumn: string, yColumn: string): Row -> Point
  {
    r => ScatterPointOf(r, xColumn, yColumn)
  }

  /** `generate_scatter_plot_data` as a value. */
  function ScatterData(rows: seq<Row>, xColumn: string, yColumn: string, limit: int): seq<Point>
  {
    Map(Filter(PyPrefix(rows, limit), ScatterKeeps(xColumn, yColumn)), ScatterPoint(xColumn, yColumn))
  }

  /** `generate_scatter_plot_data` */
  method ScatterPlotData(rows: seq<Row>, xColumn: string, yColumn: string, limit: int) returns (data: seq<Point>)
    ensures data == ScatterData(rows, xColumn, yColumn, limit)
  {
    var first := PyPrefix(rows, limit);
    data := [];
    for i := 0 to |first|
      invariant data == Map(Filter(first[..i], ScatterKeeps(xColumn, yColumn)), ScatterPoint(xColumn, yColumn))
    {
      var row := first[i];
      var xVal := Get(row, xColumn);
      var yVal := Get(row, yColumn);
      FilterMapStep(first, i, ScatterKeeps(xColumn, yColumn), ScatterPoint(xColumn, yColumn));
      if xVal != Null && yVal != Null {
        var xNumeric := Float(xVal);
        var yNumeric := Float(yVal);
        if xNumeric.Some? && yNumeric.Some? {
          data := data + [Point(xColumn, yColumn, Num(xNumeric.value), Num(yNumeric.value))];
        }
      }
    }
    assert first[..|first|] == first;
  }

  /** At most `limit` points from `rows[:limit]`, each holding both of its
      row's coordinates as numbers. */
  lemma ScatterDataSpec(rows: seq<Row>, xColumn: string, yColumn: string, limit: int)
    ensures |ScatterData(rows, xColumn, yColumn, limit)| <= |rows|
    ensures limit >= 0 ==> |ScatterData(rows, xColumn, yColumn, limit)| <= limit
    ensures forall p :: p in ScatterData(rows, xColumn, yColumn, limit) ==>
      exists r :: && r in PyPrefix(rows, limit) && ScatterRow(r, xColumn, yColumn)
                  && p == Point(xColumn, yColumn, Num(Float(Get(r, xColumn)).value), Num(Float(Get(r, yColumn)).value))
  {
    var first := PyPrefix(rows, limit);
    var kept := Filter(first, ScatterKeeps(xColumn, yColumn));
    FilterMembership(first, ScatterKeeps(xColumn, yColumn));
    forall p | p in ScatterData(rows, xColumn, yColumn, limit)
      ensures exists r :: && r in first && ScatterRow(r, xColumn, yColumn)
                          && p == Point(xColumn, yColumn, Num(Float(Get(r, xColumn)).value), Num(Float(Get(r, yColumn)).value))
    {
      var k :| 0 <= k < |kept| && p == ScatterPointOf(kept[k], xColumn, yColumn);
      assert kept[k] in kept;
    }
  }

  /** A scatter row is a bar row: the scatter plot keeps no more rows than
      the bar chart of the same columns. */
  lemma ScatterWithinBar(rows: seq<Row>, xColumn: string, yColumn: string, limit: int)
    ensures |ScatterData(rows, xColumn, yColumn, limit)| <= |BarData(rows, xColumn, yColumn, limit)|
  {
    FilterMonotone(PyPrefix(rows, limit), ScatterKeeps(xColumn, yColumn), BarKeeps(xColumn, yColumn));
  }

  // ---------------------------------------------------------------------
  // Pie slices and colours
  // ---------------------------------------------------------------------

  /** One `{'name': str(value), 'value': count}` entry. */
  datatype Slice = Slice(name: string, value: nat)

  function SliceOf(e: (Cell, nat)): Slice
  {
    Slice(StrOf(e.0), e.1)
  }

  /** The column's values that are neither `None` nor `''`. */
  function PieValues(rows: seq<Row>, column: string): seq<Cell>
  {
    Filter(ColumnValues(rows, column), Present)
  }

  /** `generate_pie_chart_data` as a value: one slice per entry of
      `most_common()`. */
  function PieData(rows: seq<Row>, column: string): seq<Slice>
  {
    Map(MostCommon(PieValues(rows, column)), SliceOf)
  }

  function SliceValue(s: Slice): int
  {
    s.value
  }

  /** Each slice is named after a present value and holds its count. */
  lemma PieDataEntries(rows: seq<Row>, column: string)
    ensures forall i :: 0 <= i < |PieData(rows, column)| ==>
      exists v :: v in PieValues(rows, column) && PieData(rows, column)[i] == Slice(StrOf(v), Count(PieValues(rows, column), Key(v)))
  {
    var vs := PieValues(rows, column);
    var mc := MostCommon(vs);
    MostCommonEntries(vs);
    assert |PieData(rows, column)| == |mc|;
    forall i | 0 <= i < |PieData(rows, column)|
      ensures exists v :: v in vs && PieData(rows, column)[i] == Slice(StrOf(v), Count(vs, Key(v)))
    {
      var v := mc[i].0;
      assert PieData(rows, column)[i] == SliceOf(mc[i]);
      assert v in vs && mc[i].1 == Count(vs, Key(v));
    }
  }

  /** There are as many slices as distinct present values; their counts
      add up to the number of present values, and never increase along
      the list. */
  lemma PieDataCounts(rows: seq<Row>, column: string)
    ensures |PieData(rows, column)| == |Seen(PieValues(rows, column), Key)|
    ensures SumOf(PieData(rows, column), SliceValue) == |PieValues(rows, column)|
    ensures forall i, j :: 0 <= i < j < |PieData(rows, column)| ==> PieData(rows, column)[i].value >= PieData(rows, column)[j].value
  {
    var vs := PieValues(rows, column);
    MostCommonCovers(vs);
    MostCommonOrdered(vs);
    MostCommonSum(vs);
    SumOfSlices(MostCommon(vs));
  }

  lemma {:induction false} SumOfSlices(t: seq<(Cell, nat)>)
    ensures SumOf(Map(t, SliceOf), SliceValue) == SumOf(t, EntryCount)
  {
    if t != [] {
      var t' := t[..|t| - 1];
      SumOfSlices(t');
      assert Map(t, SliceOf)[..|t| - 1] == Map(t', SliceOf);
    }
  }

  /** `base_colors`: blue, green, yellow, purple, red. */
  const BaseColors: seq<string> := ["#3b82f6", "#10b981", "#f59e0b", "#8b5cf6", "#ef4444"]

  /** `get_chart_colors`: `count` colours (none for a count below 1), the
      palette repeated in order. */
  method ChartColors(count: int) returns (colors: seq<string>)
    ensures |colors| == if count > 0 then count else 0
    ensures forall i :: 0 <= i < |colors| ==> colors[i] == BaseColors[i % 5]
    ensures forall i :: 0 <= i < |colors| - 5 ==> colors[i + 5] == colors[i]
  {
    colors := [];
    var n := if count > 0 then count else 0;
    for i := 0 to n
      invariant |colors| == i
      invariant forall j :: 0 <= j < i ==> colors[j] == BaseColors[j % 5]
    {
      colors := colors + [BaseColors[i % |BaseColors|]];
    }
    forall i | 0 <= i < |colors| - 5 ensures colors[i + 5] == colors[i] {
      assert (i + 5) % 5 == i % 5;
    }
  }

  // ---------------------------------------------------------------------
  // Chart configurations
  // ---------------------------------------------------------------------

  /** `generate_chart_config`: the arguments, unchecked. */
  function GenerateChartConfig(chartType: string, xColumn: string, yColumn: Option<string>): (c: ChartConfig)
    ensures c.chartType == chartType && c.xColumn == xColumn && c.yColumn == yColumn
  {
    ChartConfig(chartType, xColumn, yColumn)
  }

  /** The generator checks nothing: what it builds is accepted by the
      validator exactly when it is acceptable for the columns, and a
      configuration naming a missing x column is refused for that first. */
  lemma GeneratedConfigChecked(cols: seq<DataColumn>, chartType: string, xColumn: string, yColumn: Option<string>)
    ensures ValidateChartConfig(cols, GenerateChartConfig(chartType, xColumn, yColumn)).0 <==>
      Acceptable(cols, ChartConfig(chartType, xColumn, yColumn))
    ensures FindColumn(cols, xColumn).None? ==>
      ValidateChartConfig(cols, GenerateChartConfig(chartType, xColumn, yColumn)) ==
        (false, Some("Column '" + xColumn + "' not found in dataset"))
  {
    ValidateChartConfigSpec(cols, ChartConfig(chartType, xColumn, yColumn));
  }

  function ColumnName(col: DataColumn): string
  {
    col.name
  }

  /** `[col.name for col in columns]` */
  function Names(cols: seq<DataColumn>): seq<string>
  {
    Map(cols, ColumnName)
  }

  /** A name is listed exactly when the search by that name finds a
      column. */
  lemma NamesFind(cols: seq<DataColumn>, name: string)
    ensures name in Names(cols) <==> FindColumn(cols, name).Some?
  {
    if name in Names(cols) {
      var i :| 0 <= i < |cols| && Names(cols)[i] == name;
    }
  }

  /** `not config.y_column`: no y column, or an empty name. */
  predicate NoY(y: Option<string>)
  {
    y.None? || y.value == ""
  }

  predicate IsCategoryColumn(col: DataColumn)
  {
    col.dtype == Categorical || col.dtype == DataType.Text
  }

  /** `validate_chart_config`: `(True, None)`, or `False` with the message
      of the first check that fails. */
  function ValidateChartConfig(cols: seq<DataColumn>, config: ChartConfig): (r: (bool, Option<string>))
    ensures r.0 <==> r.1.None?
  {
    var names := Names(cols);
    var x := config.xColumn;
    if x !in names then (false, Some("Column '" + x + "' not found in dataset"))
    else if config.chartType != "pie" && NoY(config.yColumn) then (false, Some("Y-column is required for this chart type"))
    else if config.chartType != "pie" && config.yColumn.value !in names then
      (false, Some("Column '" + config.yColumn.value + "' not found in dataset"))
    else
      NamesFind(cols, x);
      var xCol := FindColumn(cols, x).value;
      if config.chartType != "pie" && (NamesFind(cols, config.yColumn.value); FindColumn(cols, config.yColumn.value).value.dtype != Numeric) then
        (false, Some("Column '" + config.yColumn.value + "' must be numeric for this chart type"))
      else if config.chartType == "pie" && !IsCategoryColumn(xCol) then
        (false, Some("Column '" + x + "' should be categorical for pie charts"))
      else if config.chartType == "scatter" && xCol.dtype != Numeric then
        (false, Some("Column '" + x + "' must be numeric for scatter plots"))
      else (true, None)
  }

  /** What a valid configuration is, stated on the columns the checks
      find (the first of each name): the x column exists; a chart other
      than a pie names a y column whose first namesake is numeric; a pie's
      x column is categorical or text; a scatter plot's x column is
      numeric. */
  predicate Acceptable(cols: seq<DataColumn>, config: ChartConfig)
  {
    var x := FindColumn(cols, config.xColumn);
    && x.Some?
    && (config.chartType != "pie" ==>
          && !NoY(config.yColumn)
          && FindColumn(cols, config.yColumn.value).Some?
          && FindColumn(cols, config.yColumn.value).value.dtype == Numeric)
    && (config.chartType == "pie" ==> IsCategoryColumn(x.value))
    && (config.chartType == "scatter" ==> x.value.dtype == Numeric)
  }

  /** The validator accepts exactly the acceptable configurations, and
      reports a missing x column before anything else. */
  lemma ValidateChartConfigSpec(cols: seq<DataColumn>, config: ChartConfig)
    ensures ValidateChartConfig(cols, config).0 <==> Acceptable(cols, config)
    ensures FindColumn(cols, config.xColumn).None? ==>
      ValidateChartConfig(cols, config) == (false, Some("Column '" + config.xColumn + "' not found in dataset"))
  {
    NamesFind(cols, config.xColumn);
    if config.yColumn.Some? {
      NamesFind(cols, config.yColumn.value);
    }
  }

  // ---------------------------------------------------------------------
  // Recommendations
  // ---------------------------------------------------------------------

  /** A recommendation dictionary; `kind` is its `type` entry. */
  datatype Recommendation = Recommendation(kind: string, title: string, xColumn: string, yColumn: Option<string>,
                                           description: string)

  function BarRecommendation(cat: DataColumn, num: DataColumn): Recommendation
  {
    Recommendation("bar", num.name + " by " + cat.name, cat.name, Some(num.name),
                   "Bar chart showing " + num.name + " values grouped by " + cat.name)
  }

  function ScatterRecommendation(a: DataColumn, b: DataColumn): Recommendation
  {
    Recommendation("scatter", a.name + " vs " + b.name, a.name, Some(b.name),
                   "Scatter plot showing relationship between " + a.name + " and " + b.name)
  }

  function PieRecommendation(col: DataColumn): Recommendation
  {
    Recommendation("pie", "Distribution of " + col.name, col.name, None,
                   "Pie chart showing the distribution of " + col.name + " values")
  }

  function CategoryColumns(cols: seq<DataColumn>): seq<DataColumn>
  {
    Filter(cols, IsCategoryColumn)
  }

  /** The bar charts of one categorical column with each numeric one. */
  function BarsFor(cat: DataColumn, nums: seq<DataColumn>): seq<Recommendation>
  {
    if nums == [] then [] else BarsFor(cat, nums[..|nums| - 1]) + [BarRecommendation(cat, nums[|nums| - 1])]
  }

  /** The bar charts of every categorical column with every numeric one. */
  function Bars(cats: seq<DataColumn>, nums: seq<DataColumn>): seq<Recommendation>
  {
    if cats == [] then [] else Bars(cats[..|cats| - 1], nums) + BarsFor(cats[|cats| - 1], nums)
  }

  /** The scatter loop as written: the inner `break` leaves only the inner
      loop, so every numeric column but the last adds a scatter plot with
      its successor until the list holds 5 recommendations. */
  function ScattersAsWritten(nums: seq<DataColumn>, i: nat, recs: seq<Recommendation>): seq<Recommendation>
    decreases |nums| - i
  {
    if i >= |nums| then recs
    else
      var next := if i + 1 < |nums| then recs + [ScatterRecommendation(nums[i], nums[i + 1])] else recs;
      if |next| >= 5 then next else ScattersAsWritten(nums, i + 1, next)
  }

  /** The one scatter plot meant: the first two numeric columns. */
  function Scatter(nums: seq<DataColumn>): seq<Recommendation>
  {
    if |nums| >= 2 then [ScatterRecommendation(nums[0], nums[1])] else []
  }

  /** A column with between 2 and 10 distinct values suits a pie chart. */
  predicate PieSized(col: DataColumn)
  {
    2 <= col.uniqueCount <= 10
  }

  /** The pie chart of the first categorical column that suits one. */
  function FirstPie(cats: seq<DataColumn>): seq<Recommendation>
  {
    if cats == [] then []
    else if PieSized(cats[0]) then [PieRecommendation(cats[0])]
    else FirstPie(cats[1..])
  }

  /** `get_recommended_charts` as written: bar charts for the first two
      categorical and first two numeric columns, the scatter loop as
      written, a pie chart, the first five. */
  function RecommendedAsWritten(cols: seq<DataColumn>): seq<Recommendation>
  {
    AsWrittenOf(NumericColumns(cols), CategoryColumns(cols))
  }

  /** The same, given the numeric and the categorical columns. */
  function AsWrittenOf(nums: seq<DataColumn>, cats: seq<DataColumn>): seq<Recommendation>
  {
    var bars := Bars(PyPrefix(cats, 2), PyPrefix(nums, 2));
    PyPrefix(ScattersAsWritten(nums, 0, bars) + FirstPie(cats), 5)
  }

  /** `get_recommended_charts` with one scatter plot: bar charts for the
      first two categorical and first two numeric columns, a scatter plot
      of the first two numeric columns, a pie chart, the first five. */
  function Recommended(cols: seq<DataColumn>): seq<Recommendation>
  {
    var nums := NumericColumns(cols);
    var cats := CategoryColumns(cols);
    PyPrefix(Bars(PyPrefix(cats, 2), PyPrefix(nums, 2)) + Scatter(nums) + FirstPie(cats), 5)
  }

  /** How many recommendations of one kind a list holds. */
  function KindCount(recs: seq<Recommendation>, kind: string): nat
  {
    if recs == [] then 0 else KindCount(recs[..|recs| - 1], kind) + (if recs[|recs| - 1].kind == kind then 1 else 0)
  }

  /** `get_recommended_charts` */
  method GetRecommendedCharts(cols: seq<DataColumn>) returns (recs: seq<Recommendation>)
    ensures recs == RecommendedAsWritten(cols)
  {
    var nums := NumericColumns(cols);
    var cats := CategoryColumns(cols);
    recs := RecommendBars(PyPrefix(cats, 2), PyPrefix(nums, 2));
    recs := RecommendScatters(nums, recs);
    var pie := RecommendPie(cats);
    recs := recs + pie;
    recs := PyPrefix(recs, 5);
  }

  /** The nested loop over the categorical and numeric columns. */
  method RecommendBars(cats: seq<DataColumn>, nums: seq<DataColumn>) returns (recs: seq<Recommendation>)
    ensures recs == Bars(cats, nums)
  {
    recs := [];
    for i := 0 to |cats|
      invariant recs == Bars(cats[..i], nums)
    {
      var cat := cats[i];
      for j := 0 to |nums|
        invariant recs == Bars(cats[..i], nums) + BarsFor(cat, nums[..j])
      {
        assert nums[..j + 1][..j] == nums[..j];
        recs := recs + [BarRecommendation(cat, nums[j])];
      }
      assert nums[..|nums|] == nums;
      assert cats[..i + 1][..i] == cats[..i];
    }
    assert cats[..|cats|] == cats;
  }

  /** The scatter loop as written: the inner loop stops after its first
      plot, so each numeric column with a successor adds one plot, and the
      outer loop stops once the list holds 5 recommendations. */
  method RecommendScatters(nums: seq<DataColumn>, start: seq<Recommendation>) returns (recs: seq<Recommendation>)
    ensures recs == ScattersAsWritten(nums, 0, start)
  {
    recs := start;
    var i := 0;
    while i < |nums|
      invariant 0 <= i <= |nums|
      invariant ScattersAsWritten(nums, i, recs) == ScattersAsWritten(nums, 0, start)
    {
      ghost var before := recs;
      if i + 1 < |nums| {
        recs := recs + [ScatterRecommendation(nums[i], nums[i + 1])];
      }
      if |recs| >= 5 {
        assert ScattersAsWritten(nums, i, before) == recs;
        return;
      }
      i := i + 1;
    }
  }

  /** The search for the first column that suits a pie chart. */
  method RecommendPie(cats: seq<DataColumn>) returns (recs: seq<Recommendation>)
    ensures recs == FirstPie(cats)
  {
    recs := [];
    for k := 0 to |cats|
      invariant FirstPie(cats[k..]) == FirstPie(cats)
      invariant recs == []
    {
      if 2 <= cats[k].uniqueCount <= 10 {
        recs := [PieRecommendation(cats[k])];
        break;
      }
      assert cats[k..][1..] == cats[k + 1..];
    }
  }

  lemma {:induction false} KindCountAppend(a: seq<Recommendation>, b: seq<Recommendation>, kind: string)
    ensures KindCount(a + b, kind) == KindCount(a, kind) + KindCount(b, kind)
    decreases |b|
  {
    if b == [] {
      assert a + b == a;
    } else {
      assert (a + b)[..|a + b| - 1] == a + b[..|b| - 1];
      KindCountAppend(a, b[..|b| - 1], kind);
    }
  }

  /** A prefix holds no more of a kind than the whole list. */
  lemma KindCountPrefix(s: seq<Recommendation>, n: int, kind: string)
    ensures KindCount(PyPrefix(s, n), kind) <= KindCount(s, kind)
  {
    var p := PyPrefix(s, n);
    assert s == p + s[|p|..];
    KindCountAppend(p, s[|p|..], kind);
  }

  /** A list of one kind counts its length for that kind and nothing for
      any other. */
  lemma {:induction false} KindCountUniform(s: seq<Recommendation>, kind: string, other: string)
    requires forall i :: 0 <= i < |s| ==> s[i].kind == kind
    ensures KindCount(s, kind) == |s|
    ensures other != kind ==> KindCount(s, other) == 0
  {
    if s != [] {
      KindCountUniform(s[..|s| - 1], kind, other);
    }
  }

  /** The bar charts pair each categorical column with each numeric one:
      `|cats| * |nums|` of them, all bars. */
  lemma {:induction false} BarsSpec(cats: seq<DataColumn>, nums: seq<DataColumn>)
    ensures |Bars(cats, nums)| == |cats| * |nums|
    ensures forall r :: r in Bars(cats, nums) ==>
      exists c, n :: c in cats && n in nums && r == BarRecommendation(c, n)
  {
    if cats != [] {
      var front, cat := cats[..|cats| - 1], cats[|cats| - 1];
      BarsSpec(front, nums);
      BarsForSpec(cat, nums);
      MulStep(|front|, |nums|);
      forall r | r in Bars(cats, nums) ensures exists c, n :: c in cats && n in nums && r == BarRecommendation(c, n) {
        BarsMember(front, cat, nums, r);
      }
    }
  }

  lemma {:induction false} BarsForSpec(cat: DataColumn, nums: seq<DataColumn>)
    ensures |BarsFor(cat, nums)| == |nums|
    ensures forall r :: r in BarsFor(cat, nums) ==> exists n :: n in nums && r == BarRecommendation(cat, n)
  {
    if nums != [] {
      var front := nums[..|nums| - 1];
      BarsForSpec(cat, front);
      forall r | r in BarsFor(cat, nums) ensures exists n :: n in nums && r == BarRecommendation(cat, n) {
        if r in BarsFor(cat, front) {
          var n :| n in front && r == BarRecommendation(cat, n);
          assert n in nums;
        } else {
          assert nums[|nums| - 1] in nums;
        }
      }
    }
  }

  lemma MulStep(a: nat, b: nat)
    ensures a * b + b == (a + 1) * b
  {
  }

  lemma BarsMember(front: seq<DataColumn>, cat: DataColumn, nums: seq<DataColumn>, r: Recommendation)
    requires forall r :: r in Bars(front, nums) ==> exists c, n :: c in front && n in nums && r == BarRecommendation(c, n)
    requires forall r :: r in BarsFor(cat, nums) ==> exists n :: n in nums && r == BarRecommendation(cat, n)
    requires r in Bars(front + [cat], nums)
    ensures exists c, n :: c in front + [cat] && n in nums && r == BarRecommendation(c, n)
  {
    var cats := front + [cat];
    assert cats[..|cats| - 1] == front;
    if r in Bars(front, nums) {
      var c, n :| c in front && n in nums && r == BarRecommendation(c, n);
      assert c in cats;
    } else {
      var n :| n in nums && r == BarRecommendation(cat, n);
      assert cat in cats;
    }
  }

  /** Conversely, the bar charts pair each categorical column with each
      numeric one. */
  lemma {:induction false} BarsComplete(cats: seq<DataColumn>, nums: seq<DataColumn>)
    ensures forall c, n :: c in cats && n in nums ==> BarRecommendation(c, n) in Bars(cats, nums)
  {
    if cats != [] {
      var front, cat := cats[..|cats| - 1], cats[|cats| - 1];
      BarsComplete(front, nums);
      BarsForComplete(cat, nums);
      assert Bars(cats, nums) == Bars(front, nums) + BarsFor(cat, nums);
      forall c, n | c in cats && n in nums ensures BarRecommendation(c, n) in Bars(cats, nums) {
        if c in front {
          assert BarRecommendation(c, n) in Bars(front, nums);
        } else {
          assert c == cat;
          assert BarRecommendation(c, n) in BarsFor(cat, nums);
        }
      }
    }
  }

  lemma {:induction false} BarsForComplete(cat: DataColumn, nums: seq<DataColumn>)
    ensures forall n :: n in nums ==> BarRecommendation(cat, n) in BarsFor(cat, nums)
  {
    if nums != [] {
      var front := nums[..|nums| - 1];
      BarsForComplete(cat, front);
      assert BarsFor(cat, nums) == BarsFor(cat, front) + [BarRecommendation(cat, nums[|nums| - 1])];
      forall n | n in nums ensures BarRecommendation(cat, n) in BarsFor(cat, nums) {
        if n in front {
          assert BarRecommendation(cat, n) in BarsFor(cat, front);
        } else {
          assert n == nums[|nums| - 1];
        }
      }
    }
  }

  /** The pie chart is that of the first categorical column with between 2
      and 10 distinct values, and there is none when no column has. */
  lemma {:induction false} FirstPieSpec(cats: seq<DataColumn>)
    ensures |FirstPie(cats)| <= 1
    ensures FirstPie(cats) == [] <==> forall i :: 0 <= i < |cats| ==> !PieSized(cats[i])
    ensures FirstPie(cats) != [] ==>
      exists k :: 0 <= k < |cats| && PieSized(cats[k]) && FirstPie(cats) == [PieRecommendation(cats[k])]
                  && forall i :: 0 <= i < k ==> !PieSized(cats[i])
  {
    if cats != [] && !PieSized(cats[0]) {
      var rest := cats[1..];
      FirstPieSpec(rest);
      assert forall i :: 1 <= i < |cats| ==> cats[i] == rest[i - 1];
      if FirstPie(rest) != [] {
        var k :| && 0 <= k < |rest| && PieSized(rest[k])
                 && FirstPie(rest) == [PieRecommendation(rest[k])] && forall i :: 0 <= i < k ==> !PieSized(rest[i]);
        assert cats[k + 1] == rest[k];
      }
    }
  }

  /** One recommendation of the list: a bar chart of one of the first two
      categorical and one of the first two numeric columns, the scatter
      plot of the first two numeric columns, or the pie chart of a
      categorical column with between 2 and 10 distinct values. */
  predicate Explained(r: Recommendation, cols: seq<DataColumn>)
  {
    var nums := NumericColumns(cols);
    var cats := CategoryColumns(cols);
    || (exists c, n :: c in PyPrefix(cats, 2) && n in PyPrefix(nums, 2) && r == BarRecommendation(c, n))
    || (|nums| >= 2 && r == ScatterRecommendation(nums[0], nums[1]))
    || (exists c :: c in cats && PieSized(c) && r == PieRecommendation(c))
  }

  /** At most 5 recommendations: a bar chart per pair of the first two
      categorical and first two numeric columns, one scatter plot when
      there are two numeric columns, and the pie chart when there is one
      and the list has room for it. */
  lemma RecommendedCounts(cols: seq<DataColumn>)
    ensures |Recommended(cols)| <= 5
    ensures KindCount(Recommended(cols), "bar") <= 4
    ensures KindCount(Recommended(cols), "scatter") <= 1
    ensures KindCount(Recommended(cols), "pie") <= 1
    ensures var nums := NumericColumns(cols);
      var cats := CategoryColumns(cols);
      var recs := Recommended(cols);
      && KindCount(recs, "bar") == |PyPrefix(cats, 2)| * |PyPrefix(nums, 2)|
      && KindCount(recs, "scatter") == (if |nums| >= 2 then 1 else 0)
      && KindCount(recs, "pie") ==
           (if FirstPie(cats) != [] && KindCount(recs, "bar") + KindCount(recs, "scatter") < 5 then 1 else 0)
      && |recs| == KindCount(recs, "bar") + KindCount(recs, "scatter") + KindCount(recs, "pie")
  {
    var nums := NumericColumns(cols);
    var cats := CategoryColumns(cols);
    var bars, scatter, pie := IntendedParts(cols);
    BarsBound(PyPrefix(cats, 2), PyPrefix(nums, 2));
    PieKinds(cats, 5 - |bars| - |scatter|, pie);
    PartsCounts(Recommended(cols), bars, scatter, pie);
  }

  /** The three parts of the recommendations: all the bar charts, the
      scatter plot, and the pie chart if there is room. */
  lemma IntendedParts(cols: seq<DataColumn>) returns (bars: seq<Recommendation>, scatter: seq<Recommendation>,
                                                     pie: seq<Recommendation>)
    ensures Recommended(cols) == bars + scatter + pie
    ensures bars == Bars(PyPrefix(CategoryColumns(cols), 2), PyPrefix(NumericColumns(cols), 2))
    ensures |bars| == |PyPrefix(CategoryColumns(cols), 2)| * |PyPrefix(NumericColumns(cols), 2)| <= 4
    ensures scatter == Scatter(NumericColumns(cols))
    ensures |scatter| == if |NumericColumns(cols)| >= 2 then 1 else 0
    ensures forall i :: 0 <= i < |scatter| ==> scatter[i].kind == "scatter"
    ensures pie == PyPrefix(FirstPie(CategoryColumns(cols)), 5 - |bars| - |scatter|)
  {
    var nums := NumericColumns(cols);
    var cats := CategoryColumns(cols);
    bars := Bars(PyPrefix(cats, 2), PyPrefix(nums, 2));
    scatter := Scatter(nums);
    pie := PyPrefix(FirstPie(cats), 5 - |bars| - |scatter|);
    BarsSize(PyPrefix(cats, 2), PyPrefix(nums, 2));
    PrefixPastFront(bars + scatter, FirstPie(cats), 5);
  }

  /** The first five of bars, scatter plots and pie charts hold at most
      five, and each kind at most as many as its part. */
  lemma PrefixCounts(bars: seq<Recommendation>, scatter: seq<Recommendation>, pie: seq<Recommendation>)
    requires |bars| <= 4 && |scatter| <= 1 && |pie| <= 1
    requires forall i :: 0 <= i < |bars| ==> bars[i].kind == "bar"
    requires forall i :: 0 <= i < |scatter| ==> scatter[i].kind == "scatter"
    requires forall i :: 0 <= i < |pie| ==> pie[i].kind == "pie"
    ensures |PyPrefix(bars + scatter + pie, 5)| <= 5
    ensures KindCount(PyPrefix(bars + scatter + pie, 5), "bar") <= 4
    ensures KindCount(PyPrefix(bars + scatter + pie, 5), "scatter") <= 1
    ensures KindCount(PyPrefix(bars + scatter + pie, 5), "pie") <= 1
  {
    var all := bars + scatter + pie;
    KindCounts(bars, scatter, pie, "bar");
    KindCounts(bars, scatter, pie, "scatter");
    KindCounts(bars, scatter, pie, "pie");
    KindCountPrefix(all, 5, "bar");
    KindCountPrefix(all, 5, "scatter");
    KindCountPrefix(all, 5, "pie");
  }

  /** At most two by two bar charts, all of them bars. */
  lemma BarsBound(cats: seq<DataColumn>, nums: seq<DataColumn>)
    requires |cats| <= 2 && |nums| <= 2
    ensures |Bars(cats, nums)| <= 4
    ensures forall i :: 0 <= i < |Bars(cats, nums)| ==> Bars(cats, nums)[i].kind == "bar"
  {
    var bars := Bars(cats, nums);
    BarsSpec(cats, nums);
    MulBound(|cats|, |nums|);
    forall i | 0 <= i < |bars| ensures bars[i].kind == "bar" {
      assert bars[i] in bars;
    }
  }

  lemma MulBound(a: nat, b: nat)
    requires a <= 2 && b <= 2
    ensures a * b <= 4
  {
  }

  /** Every recommendation is explained by the columns. */
  lemma RecommendedExplained(cols: seq<DataColumn>)
    ensures forall r :: r in Recommended(cols) ==> Explained(r, cols)
  {
    forall r | r in Recommended(cols) ensures Explained(r, cols) {
      var nums := NumericColumns(cols);
      var cats := CategoryColumns(cols);
      PrefixMember(Bars(PyPrefix(cats, 2), PyPrefix(nums, 2)) + Scatter(nums) + FirstPie(cats), 5, r);
      PartExplained(r, nums, cats);
    }
  }

  lemma PartExplained(r: Recommendation, nums: seq<DataColumn>, cats: seq<DataColumn>)
    requires r in Bars(PyPrefix(cats, 2), PyPrefix(nums, 2)) + Scatter(nums) + FirstPie(cats)
    ensures || (exists c, n :: c in PyPrefix(cats, 2) && n in PyPrefix(nums, 2) && r == BarRecommendation(c, n))
            || (|nums| >= 2 && r == ScatterRecommendation(nums[0], nums[1]))
            || (exists c :: c in cats && PieSized(c) && r == PieRecommendation(c))
  {
    var pie := FirstPie(cats);
    if r in Bars(PyPrefix(cats, 2), PyPrefix(nums, 2)) {
      BarsSpec(PyPrefix(cats, 2), PyPrefix(nums, 2));
    } else if r in pie {
      FirstPieSpec(cats);
      var k :| && 0 <= k < |cats| && PieSized(cats[k]) && pie == [PieRecommendation(cats[k])];
      assert cats[k] in cats;
    }
  }

  lemma PrefixMember<T>(s: seq<T>, n: int, x: T)
    requires x in PyPrefix(s, n)
    ensures x in s
  {
    var p := PyPrefix(s, n);
    var i :| 0 <= i < |p| && p[i] == x;
    assert s[i] == x;
  }

  /** Bars, then scatter plots, then pie charts: each kind counts only
      its own part. */
  lemma KindCounts(bars: seq<Recommendation>, scatter: seq<Recommendation>, pie: seq<Recommendation>, kind: string)
    requires forall i :: 0 <= i < |bars| ==> bars[i].kind == "bar"
    requires forall i :: 0 <= i < |scatter| ==> scatter[i].kind == "scatter"
    requires forall i :: 0 <= i < |pie| ==> pie[i].kind == "pie"
    requires kind == "bar" || kind == "scatter" || kind == "pie"
    ensures KindCount(bars + scatter + pie, kind) ==
      if kind == "bar" then |bars| else if kind == "scatter" then |scatter| else |pie|
  {
    KindCountAppend(bars + scatter, pie, kind);
    KindCountAppend(bars, scatter, kind);
    KindCountUniform(bars, "bar", kind);
    KindCountUniform(scatter, "scatter", kind);
    KindCountUniform(pie, "pie", kind);
  }

  /** The search by name finds a listed column whose name no other
      column has. */
  lemma FoundByName(cols: seq<DataColumn>, c: DataColumn)
    requires DistinctNames(cols) && c in cols
    ensures FindColumn(cols, c.name) == Some(c)
  {
    var i :| 0 <= i < |cols| && cols[i] == c;
    FindColumnDistinct(cols, i);
  }

  /** A column picked from one of the two column lists. */
  lemma Picked(cols: seq<DataColumn>, c: DataColumn, numeric: bool)
    requires DistinctNames(cols)
    requires if numeric then c in NumericColumns(cols) else c in CategoryColumns(cols)
    ensures FindColumn(cols, c.name) == Some(c)
    ensures numeric ==> c.dtype == Numeric
    ensures !numeric ==> IsCategoryColumn(c)
  {
    if numeric {
      FilterMembership(cols, IsNumericColumn);
    } else {
      FilterMembership(cols, IsCategoryColumn);
    }
    FoundByName(cols, c);
  }

  /** When column names are distinct and not empty, every recommended
      chart passes the validator. */
  lemma RecommendationsValid(cols: seq<DataColumn>)
    requires DistinctNames(cols)
    requires forall i :: 0 <= i < |cols| ==> cols[i].name != ""
    ensures forall r :: r in Recommended(cols) ==> ValidateChartConfig(cols, ChartConfig(r.kind, r.xColumn, r.yColumn)).0
  {
    RecommendedExplained(cols);
    forall r | r in Recommended(cols) ensures ValidateChartConfig(cols, ChartConfig(r.kind, r.xColumn, r.yColumn)).0 {
      var nums := NumericColumns(cols);
      if |nums| >= 2 && r == ScatterRecommendation(nums[0], nums[1]) {
        assert r == ScatterRecommendation(nums[0], nums[0 + 1]);
      }
      ExplainedValid(cols, r);
    }
  }

  lemma ExplainedValid(cols: seq<DataColumn>, r: Recommendation)
    requires DistinctNames(cols)
    requires forall i :: 0 <= i < |cols| ==> cols[i].name != ""
    requires ExplainedAsWritten(r, cols)
    ensures ValidateChartConfig(cols, ChartConfig(r.kind, r.xColumn, r.yColumn)).0
  {
    var nums := NumericColumns(cols);
    var cats := CategoryColumns(cols);
    assert ExplainedBy(r, nums, cats);
    if r.kind == "bar" {
      BarExplainedValid(cols, r);
    } else if r.kind == "scatter" {
      ScatterExplainedValid(cols, r);
    } else {
      var c :| c in cats && PieSized(c) && r == PieRecommendation(c);
      PieValid(cols, c);
    }
  }

  lemma BarExplainedValid(cols: seq<DataColumn>, r: Recommendation)
    requires DistinctNames(cols)
    requires forall i :: 0 <= i < |cols| ==> cols[i].name != ""
    requires exists c, n :: (c in PyPrefix(CategoryColumns(cols), 2) && n in PyPrefix(NumericColumns(cols), 2) &&
                             r == BarRecommendation(c, n))
    ensures ValidateChartConfig(cols, ChartConfig(r.kind, r.xColumn, r.yColumn)).0
  {
    var c, n :| c in PyPrefix(CategoryColumns(cols), 2) && n in PyPrefix(NumericColumns(cols), 2) &&
      r == BarRecommendation(c, n);
    PrefixMember(CategoryColumns(cols), 2, c);
    PrefixMember(NumericColumns(cols), 2, n);
    BarValid(cols, c, n);
  }

  lemma ScatterExplainedValid(cols: seq<DataColumn>, r: Recommendation)
    requires DistinctNames(cols)
    requires forall i :: 0 <= i < |cols| ==> cols[i].name != ""
    requires exists k :: (0 <= k && k + 1 < |NumericColumns(cols)| &&
                          r == ScatterRecommendation(NumericColumns(cols)[k], NumericColumns(cols)[k + 1]))
    ensures ValidateChartConfig(cols, ChartConfig(r.kind, r.xColumn, r.yColumn)).0
  {
    var nums := NumericColumns(cols);
    var k :| 0 <= k && k + 1 < |nums| && r == ScatterRecommendation(nums[k], nums[k + 1]);
    ScatterValid(cols, k);
  }

  lemma BarValid(cols: seq<DataColumn>, c: DataColumn, n: DataColumn)
    requires DistinctNames(cols)
    requires forall i :: 0 <= i < |cols| ==> cols[i].name != ""
    requires c in CategoryColumns(cols) && n in NumericColumns(cols)
    ensures ValidateChartConfig(cols, ChartConfig("bar", c.name, Some(n.name))).0
  {
    ValidateChartConfigSpec(cols, ChartConfig("bar", c.name, Some(n.name)));
    Picked(cols, c, false);
    Picked(cols, n, true);
    FilterMembership(cols, IsNumericColumn);
    var i :| 0 <= i < |cols| && cols[i] == n;
  }

  lemma ScatterValid(cols: seq<DataColumn>, k: nat)
    requires DistinctNames(cols)
    requires forall i :: 0 <= i < |cols| ==> cols[i].name != ""
    requires k + 1 < |NumericColumns(cols)|
    ensures var nums := NumericColumns(cols);
      ValidateChartConfig(cols, ChartConfig("scatter", nums[k].name, Some(nums[k + 1].name))).0
  {
    var nums := NumericColumns(cols);
    ValidateChartConfigSpec(cols, ChartConfig("scatter", nums[k].name, Some(nums[k + 1].name)));
    Picked(cols, nums[k], true);
    Picked(cols, nums[k + 1], true);
    FilterMembership(cols, IsNumericColumn);
    assert nums[k + 1] in cols;
    var i :| 0 <= i < |cols| && cols[i] == nums[k + 1];
  }

  lemma PieValid(cols: seq<DataColumn>, c: DataColumn)
    requires DistinctNames(cols)
    requires c in CategoryColumns(cols)
    ensures ValidateChartConfig(cols, ChartConfig("pie", c.name, None)).0
  {
    ValidateChartConfigSpec(cols, ChartConfig("pie", c.name, None));
    Picked(cols, c, false);
  }

  /** The scatter loop as written recommends a scatter plot for every
      numeric column but the last: three numeric columns and no other
      column give two scatter plots where one was meant. */
  lemma ScattersAsWrittenExample(cols: seq<DataColumn>)
    requires |cols| == 3 && forall i :: 0 <= i < 3 ==> cols[i].dtype == Numeric
    ensures KindCount(RecommendedAsWritten(cols), "scatter") == 2
    ensures KindCount(Recommended(cols), "scatter") == 1
  {
    FilterKeepsAll(cols, IsNumericColumn);
    FilterDropsAll(cols, IsCategoryColumn);
    var a := ScatterRecommendation(cols[0], cols[1]);
    var b := ScatterRecommendation(cols[1], cols[2]);
    assert ScattersAsWritten(cols, 0, []) == [a, b] by {
      assert [] + [a] == [a] && [a] + [b] == [a, b];
      assert ScattersAsWritten(cols, 0, []) == ScattersAsWritten(cols, 1, [a]);
      assert ScattersAsWritten(cols, 1, [a]) == ScattersAsWritten(cols, 2, [a, b]);
      assert ScattersAsWritten(cols, 2, [a, b]) == ScattersAsWritten(cols, 3, [a, b]);
    }
    assert NumericColumns(cols) == cols && CategoryColumns(cols) == [];
    assert Bars(PyPrefix([], 2), PyPrefix(cols, 2)) == [];
    assert RecommendedAsWritten(cols) == [a, b];
    assert Recommended(cols) == [a];
    assert [a, b][..1] == [a];
    assert KindCount([a], "scatter") == 1 by {
      assert [a][..0] == [];
    }
  }

  /** How many scatter plots the loop as written adds when `pairs`
      numeric columns still have a successor and the list already holds
      `have` recommendations: one per such column, but it stops once the
      list holds 5, after at least one plot. */
  function ScatterCount(pairs: int, have: int): nat
  {
    var room := if 5 - have > 1 then 5 - have else 1;
    if pairs <= 0 then 0 else if pairs < room then pairs else room
  }

  /** The scatter plots of `n` consecutive numeric columns with their
      successors, from position `i` on. */
  function Consecutive(nums: seq<DataColumn>, i: nat, n: nat): (s: seq<Recommendation>)
    requires n == 0 || i + n < |nums|
    ensures |s| == n
    ensures forall k :: 0 <= k < n ==> s[k].kind == "scatter"
  {
    var s := seq(n, k requires 0 <= k < n => ScatterRecommendation(nums[i + k], nums[i + k + 1]));
    assert forall k :: 0 <= k < n ==> s[k] == ScatterRecommendation(nums[i + k], nums[i + k + 1]);
    s
  }

  lemma ConsecutiveAt(nums: seq<DataColumn>, i: nat, n: nat, k: nat)
    requires i + n < |nums| && k < n
    ensures Consecutive(nums, i, n)[k] == ScatterRecommendation(nums[i + k], nums[i + k + 1])
  {
  }

  /** The scatter loop as written appends the plots of consecutive
      numeric columns, as many as `ScatterCount` says. */
  lemma {:induction false} ScattersAsWrittenClosed(nums: seq<DataColumn>, i: nat, recs: seq<Recommendation>)
    ensures ScattersAsWritten(nums, i, recs) == recs + Consecutive(nums, i, ScatterCount(|nums| - 1 - i, |recs|))
    decreases |nums| - i
  {
    if i + 1 < |nums| {
      var first := ScatterRecommendation(nums[i], nums[i + 1]);
      var next := recs + [first];
      if |next| >= 5 {
        assert Consecutive(nums, i, 1) == [first];
      } else {
        ScattersAsWrittenClosed(nums, i + 1, next);
        var n := ScatterCount(|nums| - 2 - i, |next|);
        assert ScatterCount(|nums| - 1 - i, |recs|) == n + 1;
        assert [first] + Consecutive(nums, i + 1, n) == Consecutive(nums, i, n + 1);
      }
    } else if i < |nums| && |recs| < 5 {
      assert ScattersAsWritten(nums, i, recs) == ScattersAsWritten(nums, i + 1, recs);
    }
  }

  /** Keeping the first `n` of a list whose front fits keeps that front. */
  lemma PrefixPastFront<T>(a: seq<T>, b: seq<T>, n: int)
    requires |a| <= n
    ensures PyPrefix(a + b, n) == a + PyPrefix(b, n - |a|)
  {
  }

  /** As written, the list holds at most 5 recommendations: every bar
      chart of the first two categorical and first two numeric columns,
      a scatter plot for each numeric column with a successor until the
      list is full (at least one when there are two numeric columns), and
      at most one pie chart. */
  lemma RecommendedAsWrittenCounts(cols: seq<DataColumn>)
    ensures var nums := NumericColumns(cols);
      var cats := CategoryColumns(cols);
      var recs := RecommendedAsWritten(cols);
      && |recs| <= 5
      && KindCount(recs, "bar") == |PyPrefix(cats, 2)| * |PyPrefix(nums, 2)| <= 4
      && KindCount(recs, "scatter") == ScatterCount(|nums| - 1, KindCount(recs, "bar"))
      && (|nums| >= 2 ==> KindCount(recs, "scatter") >= 1)
      && KindCount(recs, "pie") <= 1
      && KindCount(recs, "pie") ==
           (if FirstPie(cats) != [] && KindCount(recs, "bar") + KindCount(recs, "scatter") < 5 then 1 else 0)
      && |recs| == KindCount(recs, "bar") + KindCount(recs, "scatter") + KindCount(recs, "pie")
  {
    CountsOf(NumericColumns(cols), CategoryColumns(cols));
  }

  lemma CountsOf(nums: seq<DataColumn>, cats: seq<DataColumn>)
    ensures var recs := AsWrittenOf(nums, cats);
      && |recs| <= 5
      && KindCount(recs, "bar") == |PyPrefix(cats, 2)| * |PyPrefix(nums, 2)| <= 4
      && KindCount(recs, "scatter") == ScatterCount(|nums| - 1, KindCount(recs, "bar"))
      && (|nums| >= 2 ==> KindCount(recs, "scatter") >= 1)
      && KindCount(recs, "pie") <= 1
      && KindCount(recs, "pie") ==
           (if FirstPie(cats) != [] && KindCount(recs, "bar") + KindCount(recs, "scatter") < 5 then 1 else 0)
      && |recs| == KindCount(recs, "bar") + KindCount(recs, "scatter") + KindCount(recs, "pie")
  {
    var bars, scatter, pie := PartsOf(nums, cats);
    CountsOfParts(nums, cats, AsWrittenOf(nums, cats), bars, scatter, pie);
  }

  lemma CountsOfParts(nums: seq<DataColumn>, cats: seq<DataColumn>, recs: seq<Recommendation>,
                      bars: seq<Recommendation>, scatter: seq<Recommendation>, pie: seq<Recommendation>)
    requires recs == bars + scatter + pie
    requires bars == Bars(PyPrefix(cats, 2), PyPrefix(nums, 2))
    requires |bars| == |PyPrefix(cats, 2)| * |PyPrefix(nums, 2)| <= 4
    requires |scatter| == ScatterCount(|nums| - 1, |bars|) && |bars| + |scatter| <= 5
    requires |scatter| == 0 || |scatter| < |nums|
    requires scatter == Consecutive(nums, 0, |scatter|)
    requires pie == PyPrefix(FirstPie(cats), 5 - |bars| - |scatter|)
    ensures |recs| <= 5
    ensures KindCount(recs, "bar") == |PyPrefix(cats, 2)| * |PyPrefix(nums, 2)| <= 4
    ensures KindCount(recs, "scatter") == ScatterCount(|nums| - 1, KindCount(recs, "bar"))
    ensures |nums| >= 2 ==> KindCount(recs, "scatter") >= 1
    ensures KindCount(recs, "pie") <= 1
    ensures KindCount(recs, "pie") ==
      (if FirstPie(cats) != [] && KindCount(recs, "bar") + KindCount(recs, "scatter") < 5 then 1 else 0)
    ensures |recs| == KindCount(recs, "bar") + KindCount(recs, "scatter") + KindCount(recs, "pie")
  {
    BarsBound(PyPrefix(cats, 2), PyPrefix(nums, 2));
    PieKinds(cats, 5 - |bars| - |scatter|, pie);
    PartsCounts(recs, bars, scatter, pie);
    ScatterCountFits(|nums| - 1, |bars|);
  }

  /** The three parts of the recommendations as written: the bar charts,
      the scatter plots of consecutive numeric columns, and what is kept
      of the pie chart. */
  lemma PartsOf(nums: seq<DataColumn>, cats: seq<DataColumn>) returns (bars: seq<Recommendation>,
                                                                      scatter: seq<Recommendation>,
                                                                      pie: seq<Recommendation>)
    ensures AsWrittenOf(nums, cats) == bars + scatter + pie
    ensures bars == Bars(PyPrefix(cats, 2), PyPrefix(nums, 2))
    ensures |bars| == |PyPrefix(cats, 2)| * |PyPrefix(nums, 2)| <= 4
    ensures |scatter| == ScatterCount(|nums| - 1, |bars|) && |bars| + |scatter| <= 5
    ensures |scatter| == 0 || |scatter| < |nums|
    ensures scatter == Consecutive(nums, 0, |scatter|)
    ensures pie == PyPrefix(FirstPie(cats), 5 - |bars| - |scatter|)
  {
    bars := Bars(PyPrefix(cats, 2), PyPrefix(nums, 2));
    BarsSize(PyPrefix(cats, 2), PyPrefix(nums, 2));
    var n := ScatterCount(|nums| - 1, |bars|);
    ScatterCountFits(|nums| - 1, |bars|);
    scatter := Consecutive(nums, 0, n);
    ScattersAsWrittenClosed(nums, 0, bars);
    pie := PyPrefix(FirstPie(cats), 5 - |bars| - n);
    PrefixSplit(bars, scatter, FirstPie(cats));
  }

  /** The loop as written leaves the list with at most 5 entries. */
  lemma ScatterCountFits(pairs: int, have: nat)
    requires have <= 4
    ensures have + ScatterCount(pairs, have) <= 5
    ensures pairs > 0 ==> ScatterCount(pairs, have) >= 1
  {
  }

  /** Keeping the first five of bars, scatter plots and pie charts keeps
      the bars and scatter plots when they fit. */
  lemma PrefixSplit(bars: seq<Recommendation>, scatter: seq<Recommendation>, first: seq<Recommendation>)
    requires |bars| + |scatter| <= 5
    ensures PyPrefix(bars + scatter + first, 5) == bars + scatter + PyPrefix(first, 5 - |bars| - |scatter|)
  {
    PrefixPastFront(bars + scatter, first, 5);
  }

  /** At most two by two bar charts: one per pair of columns. */
  lemma BarsSize(cats: seq<DataColumn>, nums: seq<DataColumn>)
    requires |cats| <= 2 && |nums| <= 2
    ensures |Bars(cats, nums)| == |cats| * |nums| <= 4
  {
    BarsSpec(cats, nums);
    MulBound(|cats|, |nums|);
  }

  /** What is kept of the pie chart holds only pie charts: the pie chart
      itself when there is one and room is left. */
  lemma PieKinds(cats: seq<DataColumn>, room: int, pie: seq<Recommendation>)
    requires pie == PyPrefix(FirstPie(cats), room) && room >= 0
    ensures pie <= FirstPie(cats)
    ensures |pie| == if FirstPie(cats) != [] && room > 0 then 1 else 0
    ensures forall i :: 0 <= i < |pie| ==> pie[i].kind == "pie"
  {
    FirstPieSpec(cats);
    if pie != [] {
      assert pie[0] == FirstPie(cats)[0];
    }
  }

  /** Conversely, the list holds every bar chart of the first two
      categorical and first two numeric columns, the scatter plot of the
      first two numeric columns, and, unless the list is full, the pie
      chart of the first suitable categorical column. */
  lemma RecommendedComplete(cols: seq<DataColumn>)
    ensures var nums := NumericColumns(cols);
      var cats := CategoryColumns(cols);
      && (forall c, n :: c in PyPrefix(cats, 2) && n in PyPrefix(nums, 2) ==>
            BarRecommendation(c, n) in Recommended(cols))
      && (|nums| >= 2 ==> ScatterRecommendation(nums[0], nums[1]) in Recommended(cols))
      && (|Recommended(cols)| < 5 ==> forall p :: p in FirstPie(cats) ==> p in Recommended(cols))
  {
    var nums := NumericColumns(cols);
    var cats := CategoryColumns(cols);
    var bars, scatter, pie := IntendedParts(cols);
    BarsComplete(PyPrefix(cats, 2), PyPrefix(nums, 2));
    PieKinds(cats, 5 - |bars| - |scatter|, pie);
    if |Recommended(cols)| < 5 {
      FirstPieSpec(cats);
      assert pie == FirstPie(cats);
    }
  }

  /** Conversely, the list as written holds every bar chart of the first
      two categorical and first two numeric columns, the scatter plot of
      each numeric column with its successor as far as `ScatterCount`
      reaches, and, unless the list is full, the pie chart of the first
      suitable categorical column. */
  lemma RecommendedAsWrittenComplete(cols: seq<DataColumn>)
    ensures var nums := NumericColumns(cols);
      var cats := CategoryColumns(cols);
      var recs := RecommendedAsWritten(cols);
      && (forall c, n :: c in PyPrefix(cats, 2) && n in PyPrefix(nums, 2) ==> BarRecommendation(c, n) in recs)
      && (forall k :: 0 <= k < KindCount(recs, "scatter") && k + 1 < |nums| ==>
            ScatterRecommendation(nums[k], nums[k + 1]) in recs)
      && (|recs| < 5 ==> forall p :: p in FirstPie(cats) ==> p in recs)
  {
    CompleteOf(NumericColumns(cols), CategoryColumns(cols));
  }

  lemma CompleteOf(nums: seq<DataColumn>, cats: seq<DataColumn>)
    ensures var recs := AsWrittenOf(nums, cats);
      && (forall c, n :: c in PyPrefix(cats, 2) && n in PyPrefix(nums, 2) ==> BarRecommendation(c, n) in recs)
      && (forall k :: 0 <= k < KindCount(recs, "scatter") && k + 1 < |nums| ==>
            ScatterRecommendation(nums[k], nums[k + 1]) in recs)
      && (|recs| < 5 ==> forall p :: p in FirstPie(cats) ==> p in recs)
  {
    var bars, scatter, pie := PartsOf(nums, cats);
    PartsMembers(AsWrittenOf(nums, cats), bars, scatter, pie);
    BarsKept(nums, cats, bars);
    ScattersKept(nums, cats, AsWrittenOf(nums, cats), bars, scatter, pie);
    PieKept(cats, AsWrittenOf(nums, cats), bars, scatter, pie);
  }

  lemma BarsKept(nums: seq<DataColumn>, cats: seq<DataColumn>, bars: seq<Recommendation>)
    requires bars == Bars(PyPrefix(cats, 2), PyPrefix(nums, 2))
    requires forall r :: r in bars ==> r in AsWrittenOf(nums, cats)
    ensures forall c, n :: c in PyPrefix(cats, 2) && n in PyPrefix(nums, 2) ==>
      BarRecommendation(c, n) in AsWrittenOf(nums, cats)
  {
    BarsComplete(PyPrefix(cats, 2), PyPrefix(nums, 2));
  }

  lemma ScattersKept(nums: seq<DataColumn>, cats: seq<DataColumn>, recs: seq<Recommendation>,
                     bars: seq<Recommendation>, scatter: seq<Recommendation>, pie: seq<Recommendation>)
    requires recs == bars + scatter + pie
    requires bars == Bars(PyPrefix(cats, 2), PyPrefix(nums, 2))
    requires |scatter| == 0 || |scatter| < |nums|
    requires scatter == Consecutive(nums, 0, |scatter|)
    requires pie == PyPrefix(FirstPie(cats), 5 - |bars| - |scatter|) && |bars| + |scatter| <= 5
    requires forall k :: 0 <= k < |scatter| ==> scatter[k] in recs
    ensures forall k :: 0 <= k < KindCount(recs, "scatter") && k + 1 < |nums| ==>
      ScatterRecommendation(nums[k], nums[k + 1]) in recs
  {
    BarsBound(PyPrefix(cats, 2), PyPrefix(nums, 2));
    PieKinds(cats, 5 - |bars| - |scatter|, pie);
    PartsCounts(recs, bars, scatter, pie);
    ScattersIn(nums, recs, scatter);
  }

  lemma ScattersIn(nums: seq<DataColumn>, recs: seq<Recommendation>, scatter: seq<Recommendation>)
    requires |scatter| == 0 || |scatter| < |nums|
    requires scatter == Consecutive(nums, 0, |scatter|)
    requires forall k :: 0 <= k < |scatter| ==> scatter[k] in recs
    ensures forall k :: 0 <= k < |scatter| ==> ScatterRecommendation(nums[k], nums[k + 1]) in recs
  {
    forall k | 0 <= k < |scatter| ensures ScatterRecommendation(nums[k], nums[k + 1]) in recs {
      ConsecutiveAt(nums, 0, |scatter|, k);
    }
  }

  lemma PieKept(cats: seq<DataColumn>, recs: seq<Recommendation>, bars: seq<Recommendation>,
                scatter: seq<Recommendation>, pie: seq<Recommendation>)
    requires recs == bars + scatter + pie
    requires pie == PyPrefix(FirstPie(cats), 5 - |bars| - |scatter|) && |bars| + |scatter| <= 5
    requires forall r :: r in pie ==> r in recs
    ensures |recs| < 5 ==> forall p :: p in FirstPie(cats) ==> p in recs
  {
    if |recs| < 5 {
      FirstPieSpec(cats);
      assert pie == FirstPie(cats);
    }
  }

  /** Every member of each part is a member of the whole. */
  lemma PartsMembers(recs: seq<Recommendation>, bars: seq<Recommendation>, scatter: seq<Recommendation>,
                     pie: seq<Recommendation>)
    requires recs == bars + scatter + pie
    ensures forall r :: r in bars ==> r in recs
    ensures forall k :: 0 <= k < |scatter| ==> scatter[k] in recs
    ensures forall r :: r in pie ==> r in recs
  {
    forall k | 0 <= k < |scatter| ensures scatter[k] in recs {
      assert recs[|bars| + k] == scatter[k];
    }
  }

  /** A list made of bars, then scatter plots, then pie charts counts
      each part for its kind. */
  lemma PartsCounts(recs: seq<Recommendation>, bars: seq<Recommendation>, scatter: seq<Recommendation>,
                    pie: seq<Recommendation>)
    requires recs == bars + scatter + pie
    requires forall i :: 0 <= i < |bars| ==> bars[i].kind == "bar"
    requires forall i :: 0 <= i < |scatter| ==> scatter[i].kind == "scatter"
    requires forall i :: 0 <= i < |pie| ==> pie[i].kind == "pie"
    ensures KindCount(recs, "bar") == |bars|
    ensures KindCount(recs, "scatter") == |scatter|
    ensures KindCount(recs, "pie") == |pie|
  {
    KindCounts(bars, scatter, pie, "bar");
    KindCounts(bars, scatter, pie, "scatter");
    KindCounts(bars, scatter, pie, "pie");
  }

  /** One recommendation of the list as written: a bar chart of one of
      the first two categorical and one of the first two numeric columns,
      the scatter plot of a numeric column and the next one, or the pie
      chart of a categorical column with between 2 and 10 distinct
      values. */
  predicate ExplainedAsWritten(r: Recommendation, cols: seq<DataColumn>)
  {
    ExplainedBy(r, NumericColumns(cols), CategoryColumns(cols))
  }

  predicate ExplainedBy(r: Recommendation, nums: seq<DataColumn>, cats: seq<DataColumn>)
  {
    || (exists c, n :: c in PyPrefix(cats, 2) && n in PyPrefix(nums, 2) && r == BarRecommendation(c, n))
    || (exists k :: 0 <= k && k + 1 < |nums| && r == ScatterRecommendation(nums[k], nums[k + 1]))
    || (exists c :: c in cats && PieSized(c) && r == PieRecommendation(c))
  }

  /** Every recommendation as written is explained by the columns. */
  lemma RecommendedAsWrittenExplained(cols: seq<DataColumn>)
    ensures forall r :: r in RecommendedAsWritten(cols) ==> ExplainedAsWritten(r, cols)
  {
    ExplainedOf(NumericColumns(cols), CategoryColumns(cols));
  }

  lemma ExplainedOf(nums: seq<DataColumn>, cats: seq<DataColumn>)
    ensures forall r :: r in AsWrittenOf(nums, cats) ==> ExplainedBy(r, nums, cats)
  {
    var bars, scatter, pie := PartsOf(nums, cats);
    ExplainedByParts(nums, cats, AsWrittenOf(nums, cats), bars, scatter, pie);
  }

  lemma ExplainedByParts(nums: seq<DataColumn>, cats: seq<DataColumn>, recs: seq<Recommendation>,
                         bars: seq<Recommendation>, scatter: seq<Recommendation>, pie: seq<Recommendation>)
    requires recs == bars + scatter + pie
    requires bars == Bars(PyPrefix(cats, 2), PyPrefix(nums, 2))
    requires |bars| == |PyPrefix(cats, 2)| * |PyPrefix(nums, 2)| <= 4
    requires |scatter| == ScatterCount(|nums| - 1, |bars|) && |bars| + |scatter| <= 5
    requires |scatter| == 0 || |scatter| < |nums|
    requires scatter == Consecutive(nums, 0, |scatter|)
    requires pie == PyPrefix(FirstPie(cats), 5 - |bars| - |scatter|)
    ensures forall r :: r in recs ==> ExplainedBy(r, nums, cats)
  {
    BarsExplained(nums, cats, bars);
    ScattersExplained(nums, cats, scatter);
    PieExplained(nums, cats, 5 - |bars| - |scatter|, pie);
  }

  lemma BarsExplained(nums: seq<DataColumn>, cats: seq<DataColumn>, bars: seq<Recommendation>)
    requires bars == Bars(PyPrefix(cats, 2), PyPrefix(nums, 2))
    ensures forall r :: r in bars ==> ExplainedBy(r, nums, cats)
  {
    BarsSpec(PyPrefix(cats, 2), PyPrefix(nums, 2));
  }

  lemma ScattersExplained(nums: seq<DataColumn>, cats: seq<DataColumn>, scatter: seq<Recommendation>)
    requires |scatter| == 0 || |scatter| < |nums|
    requires scatter == Consecutive(nums, 0, |scatter|)
    ensures forall r :: r in scatter ==> ExplainedBy(r, nums, cats)
  {
    forall r | r in scatter ensures ExplainedBy(r, nums, cats) {
      var k :| 0 <= k < |scatter| && scatter[k] == r;
      ConsecutiveAt(nums, 0, |scatter|, k);
    }
  }

  lemma PieExplained(nums: seq<DataColumn>, cats: seq<DataColumn>, room: int, pie: seq<Recommendation>)
    requires room >= 0 && pie == PyPrefix(FirstPie(cats), room)
    ensures forall r :: r in pie ==> ExplainedBy(r, nums, cats)
  {
    PieKinds(cats, room, pie);
    FirstPieSpec(cats);
    forall r | r in pie ensures ExplainedBy(r, nums, cats) {
      var k :| 0 <= k < |cats| && PieSized(cats[k]) && FirstPie(cats) == [PieRecommendation(cats[k])];
      assert cats[k] in cats;
    }
  }

  /** When column names are distinct and not empty, every chart
      recommended as written passes the validator. */
  lemma RecommendationsAsWrittenValid(cols: seq<DataColumn>)
    requires DistinctNames(cols)
    requires forall i :: 0 <= i < |cols| ==> cols[i].name != ""
    ensures forall r :: r in RecommendedAsWritten(cols) ==>
      ValidateChartConfig(cols, ChartConfig(r.kind, r.xColumn, r.yColumn)).0
  {
    RecommendedAsWrittenExplained(cols);
    forall r | r in RecommendedAsWritten(cols) ensures ValidateChartConfig(cols, ChartConfig(r.kind, r.xColumn, r.yColumn)).0 {
      ExplainedValid(cols, r);
    }
  }

  // ---------------------------------------------------------------------
  // Export
  // ---------------------------------------------------------------------

  /** The result of `export_chart_data`: the CSV text, the JSON text
      (whose contents are not modelled), or the `ValueError` raised for
      any other format, with its message. */
  datatype Export = Exported(text: string) | JsonDump | UnsupportedFormat(message: string)

  function SameKey(k: string): string
  {
    k
  }

  function TextKey(k: string): SortKey
  {
    SortKey.Text(k)
  }

  function RowKeys(r: Row): seq<string>
  {
    r.keys
  }

  /** `sorted(keys)` of the union of every item's keys. */
  function CsvHeader(data: seq<Row>): seq<string>
  {
    SortBy(DistinctBy(FlatMap(data, RowKeys), SameKey), TextKey, false)
  }

  /** `[str(item.get(key, '')) for key in keys]` */
  function Fields(item: Row, keys: seq<string>): (fs: seq<string>)
    ensures |fs| == |keys|
  {
    seq(|keys|, i requires 0 <= i < |keys| => StrOf(GetOr(item, keys[i], Str(""))))
  }

  function CsvLine(keys: seq<string>): Row -> string
  {
    item => Join(",", Fields(item, keys))
  }

  /** The CSV text: `""` for no data, otherwise the header line and one
      line per item, joined by newlines. */
  function ExportCsv(data: seq<Row>): string
  {
    if data == [] then ""
    else
      var keys := CsvHeader(data);
      Join("\n", [Join(",", keys)] + Map(data, CsvLine(keys)))
  }

  /** `export_chart_data` as a value. */
  function ExportChartData(data: seq<Row>, format: string): Export
  {
    if format == "json" then JsonDump
    else if format == "csv" then Exported(ExportCsv(data))
    else UnsupportedFormat("Unsupported export format: " + format)
  }

  /** `export_chart_data` */
  method ExportData(data: seq<Row>, format: string) returns (r: Export)
    ensures r == ExportChartData(data, format)
  {
    if format == "json" {
      return JsonDump;
    } else if format == "csv" {
      if data == [] {
        return Exported("");
      }
      var all := CollectKeys(data);
      var keys := SortBy(DistinctBy(all, SameKey), TextKey, false);
      var lines := CsvLines(data, keys);
      return Exported(Join("\n", lines));
    } else {
      return UnsupportedFormat("Unsupported export format: " + format);
    }
  }

  /** The loop gathering `item.keys()` of every item, in order. */
  method CollectKeys(data: seq<Row>) returns (all: seq<string>)
    ensures all == FlatMap(data, RowKeys)
  {
    all := [];
    for i := 0 to |data|
      invariant all == FlatMap(data[..i], RowKeys)
    {
      FlatMapStep(data, i, RowKeys);
      all := all + data[i].keys;
    }
    assert data[..|data|] == data;
  }

  /** The header line followed by the loop writing one line per item. */
  method CsvLines(data: seq<Row>, keys: seq<string>) returns (lines: seq<string>)
    ensures lines == [Join(",", keys)] + Map(data, CsvLine(keys))
  {
    lines := [Join(",", keys)];
    for i := 0 to |data|
      invariant lines == [Join(",", keys)] + Map(data[..i], CsvLine(keys))
    {
      MapStep(data, i, CsvLine(keys));
      lines := lines + [Join(",", Fields(data[i], keys))];
    }
    assert data[..|data|] == data;
  }

  lemma {:induction false} DistinctAtMostOnce<T>(s: seq<T>, x: T)
    requires forall i, j :: 0 <= i < j < |s| ==> s[i] != s[j]
    ensures multiset(s)[x] <= 1
  {
    if s != [] {
      var s' := s[..|s| - 1];
      assert s == s' + [s[|s| - 1]];
      DistinctAtMostOnce(s', x);
      if s[|s| - 1] == x {
        assert x !in s';
      }
    }
  }

  /** The header lists every key of every item and nothing else. */
  lemma CsvHeaderMembers(data: seq<Row>)
    ensures forall k :: k in CsvHeader(data) <==> exists i :: 0 <= i < |data| && k in data[i].keys
  {
    var all := FlatMap(data, RowKeys);
    var d := DistinctBy(all, SameKey);
    var h := CsvHeader(data);
    DistinctByProps(all, SameKey);
    forall k ensures k in h <==> exists i :: 0 <= i < |data| && k in data[i].keys {
      HeaderKey(data, k);
    }
  }

  /** One key: in the header exactly when some item has it. */
  lemma HeaderKey(data: seq<Row>, k: string)
    ensures k in CsvHeader(data) <==> exists i :: 0 <= i < |data| && k in data[i].keys
  {
    var all := FlatMap(data, RowKeys);
    var d := DistinctBy(all, SameKey);
    var h := CsvHeader(data);
    DistinctByProps(all, SameKey);
    assert k in h <==> k in multiset(d);
    SeenIff(d, SameKey, k);
    SeenIff(all, SameKey, k);
    if exists i :: 0 <= i < |data| && k in data[i].keys {
      var i :| 0 <= i < |data| && k in data[i].keys;
      FlatMapContains(data, RowKeys, i, k);
    }
    if k in all {
      FlatMapMember(data, RowKeys, k);
    }
  }

  /** The header holds each key once, in increasing order. */
  lemma CsvHeaderOrdered(data: seq<Row>)
    ensures forall i, j :: 0 <= i < j < |CsvHeader(data)| ==>
      CsvHeader(data)[i] != CsvHeader(data)[j] && StrLe(CsvHeader(data)[i], CsvHeader(data)[j])
  {
    SortedDistinct(FlatMap(data, RowKeys), CsvHeader(data));
  }

  /** The distinct keys, sorted, are strictly increasing. */
  lemma SortedDistinct(all: seq<string>, h: seq<string>)
    requires h == SortBy(DistinctBy(all, SameKey), TextKey, false)
    ensures forall i, j :: 0 <= i < j < |h| ==> h[i] != h[j] && StrLe(h[i], h[j])
  {
    var d := DistinctBy(all, SameKey);
    DistinctByProps(all, SameKey);
    forall i, j | 0 <= i < j < |h| ensures h[i] != h[j] && StrLe(h[i], h[j]) {
      assert InOrder(TextKey(h[i]), TextKey(h[j]), false);
      if h[i] == h[j] {
        TwiceInSeq(h, i, j);
        DistinctAtMostOnce(d, h[i]);
      }
    }
  }

  /** An element at two positions occurs at least twice. */
  lemma TwiceInSeq<T>(h: seq<T>, i: nat, j: nat)
    requires i < j < |h| && h[i] == h[j]
    ensures multiset(h)[h[i]] >= 2
  {
    assert h == h[..j] + h[j..];
    assert h[i] in h[..j] && h[j] in h[j..];
  }

  lemma {:induction false} JoinFree(sep: string, parts: seq<string>, c: char)
    requires CountChar(sep, c) == 0
    requires forall i :: 0 <= i < |parts| ==> CountChar(parts[i], c) == 0
    ensures CountChar(Join(sep, parts), c) == 0
  {
    if |parts| > 1 {
      JoinFree(sep, parts[1..], c);
      CountCharAppend(parts[0] + sep, Join(sep, parts[1..]), c);
      CountCharAppend(parts[0], sep, c);
    }
  }

  /** No key and no value's text of any item holds a newline. */
  predicate NoNewlines(data: seq<Row>)
  {
    && (forall i, k :: 0 <= i < |data| && k in data[i].keys ==> CountChar(k, '\n') == 0)
    && (forall i, k :: 0 <= i < |data| && k in data[i].cells ==> CountChar(StrOf(data[i].cells[k]), '\n') == 0)
  }

  /** The CSV line of an item of such data holds no newline. */
  lemma CsvLineFree(data: seq<Row>, i: nat, keys: seq<string>)
    requires NoNewlines(data) && i < |data|
    ensures CountChar(CsvLine(keys)(data[i]), '\n') == 0
  {
    var item := data[i];
    var fs := Fields(item, keys);
    forall j | 0 <= j < |fs| ensures CountChar(fs[j], '\n') == 0 {
      if keys[j] in item.cells {
        assert fs[j] == StrOf(item.cells[keys[j]]);
      } else {
        assert fs[j] == "";
      }
    }
    JoinFree(",", fs, '\n');
  }

  /** The header of such data holds no newline. */
  lemma CsvHeaderFree(data: seq<Row>)
    requires forall i, k :: 0 <= i < |data| && k in data[i].keys ==> CountChar(k, '\n') == 0
    ensures CountChar(Join(",", CsvHeader(data)), '\n') == 0
  {
    var keys := CsvHeader(data);
    CsvHeaderMembers(data);
    forall j | 0 <= j < |keys| ensures CountChar(keys[j], '\n') == 0 {
      assert keys[j] in keys;
      var i :| 0 <= i < |data| && keys[j] in data[i].keys;
    }
    JoinFree(",", keys, '\n');
  }

  /** The header and the lines of such data hold no newline. */
  lemma CsvLinesFree(data: seq<Row>, keys: seq<string>, lines: seq<string>)
    requires data != [] && NoNewlines(data)
    requires CountChar(Join(",", keys), '\n') == 0
    requires lines == [Join(",", keys)] + Map(data, CsvLine(keys))
    ensures forall i :: 0 <= i < |lines| ==> CountChar(lines[i], '\n') == 0
  {
    var body := Map(data, CsvLine(keys));
    forall i | 0 <= i < |body| ensures CountChar(body[i], '\n') == 0 {
      CsvLineFree(data, i, keys);
    }
    assert forall i :: 1 <= i < |lines| ==> lines[i] == body[i - 1];
  }

  /** No data exports as the empty text; otherwise, when no key and no
      value's text holds a newline, the text has exactly one newline per
      item: a header line and one line per item. */
  lemma ExportCsvSpec(data: seq<Row>)
    ensures data == [] ==> ExportCsv(data) == ""
    ensures NoNewlines(data) ==> CountChar(ExportCsv(data), '\n') == |data|
  {
    if data != [] && NoNewlines(data) {
      var keys := CsvHeader(data);
      var lines := [Join(",", keys)] + Map(data, CsvLine(keys));
      CsvHeaderFree(data);
      CsvLinesFree(data, keys, lines);
      JoinSeparatorCount('\n', lines);
      assert "\n" == ['\n'];
    }
  }
}
