/** The query pipeline of `DataProcessor` (global search, then the filter
    rules in order, then an optional sort, cached until a setting changes)
    and the four row-cleaning transforms. */
module DataProcessing {
  import opened Values
  import opened Strings
  import opened Rows
  import opened Seqs
  import opened Sorting
  import opened Stats
  import opened Counting
  import opened Types
  import opened DataUtils

  // ---------------------------------------------------------------------
  // Search, filter rules and sorting
  // ---------------------------------------------------------------------

  /** `any(term in str(v).lower() for v in row.values() if v is not None)` */
  predicate MatchesSearch(row: Row, term: string)
  {
    exists k :: k in row.cells && row.cells[k] != Null && Strings.Contains(Lower(StrOf(row.cells[k])), term)
  }

  function SearchMatch(term: string): Row -> bool
  {
    row => MatchesSearch(row, term)
  }

  /** The search step of `_apply_all_filters`: skipped for an empty term. */
  function Searched(rows: seq<Row>, term: string): seq<Row>
  {
    if term != "" then Filter(rows, SearchMatch(term)) else rows
  }

  /** `float()` of an already lowered string, as the comparison operators
      use it; `None` where it raises. */
  function AsFloat(s: string): Option<real>
  {
    ParseFloat(s)
  }

  /** `row_matches` of `_apply_filter_rule`: the cell is read with
      `str(row.get(column, ''))`, both sides are lowercased, and the
      comparison operators exclude a row when either side does not
      parse. */
  predicate RuleMatches(row: Row, rule: FilterRule)
  {
    var cell := Lower(StrOf(GetOr(row, rule.column, Str(""))));
    var target := Lower(rule.value);
    match rule.operator
    case Equals => cell == target
    case Contains => Strings.Contains(cell, target)
    case NotEquals => cell != target
    case Greater => AsFloat(cell).Some? && AsFloat(target).Some? && AsFloat(cell).value > AsFloat(target).value
    case Less => AsFloat(cell).Some? && AsFloat(target).Some? && AsFloat(cell).value < AsFloat(target).value
  }

  function RuleMatch(rule: FilterRule): Row -> bool
  {
    row => RuleMatches(row, rule)
  }

  /** `if rule.column and rule.value`: a rule with an empty column or value
      is skipped. */
  predicate RuleActive(rule: FilterRule)
  {
    rule.column != "" && rule.value != ""
  }

  /** The row satisfies every active rule of the list. */
  predicate PassesRules(row: Row, rules: seq<FilterRule>)
  {
    forall i :: 0 <= i < |rules| && RuleActive(rules[i]) ==> RuleMatches(row, rules[i])
  }

  /** The rules applied one after the other, in list order. */
  function ApplyRules(rows: seq<Row>, rules: seq<FilterRule>): seq<Row>
  {
    if rules == [] then rows
    else
      var data := ApplyRules(rows, rules[..|rules| - 1]);
      var rule := rules[|rules| - 1];
      if RuleActive(rule) then Filter(data, RuleMatch(rule)) else data
  }

  /** `sort_key` of `_apply_sorting`: `+inf` for `None`, the number when
      `float()` accepts the value, the lowercased string otherwise. */
  function RowKey(row: Row, column: string): SortKey
  {
    var v := Get(row, column);
    if v == Null then Infinity
    else match Float(v)
      case Some(x) => Number(x)
      case None => Sorting.Text(Lower(StrOf(v)))
  }

  function SortKeyOf(column: string): Row -> SortKey
  {
    row => RowKey(row, column)
  }

  /** `sorted(data, key=sort_key, reverse=direction == DESC)` */
  function SortedRows(rows: seq<Row>, column: string, direction: SortDirection): seq<Row>
  {
    SortBy(rows, SortKeyOf(column), direction == Desc)
  }

  /** `_apply_all_filters` as a value: search, rules in order, then the sort
      when a sort column is set. */
  function Query(rows: seq<Row>, term: string, rules: seq<FilterRule>, column: string,
                 direction: SortDirection): seq<Row>
  {
    var data := ApplyRules(Searched(rows, term), rules);
    if column != "" then SortedRows(data, column, direction) else data
  }

  /** The search keeps, in order, exactly the rows with a non-`None` value
      whose lowercased text contains the term; an empty term keeps all. */
  lemma {:induction false} SearchedSpec(rows: seq<Row>, term: string)
    ensures SubseqOf(Searched(rows, term), rows)
    ensures forall r :: r in Searched(rows, term) <==> r in rows && (term == "" || MatchesSearch(r, term))
  {
    if term != "" {
      FilterIsSubseq(rows, SearchMatch(term));
      FilterMembership(rows, SearchMatch(term));
    } else {
      SubseqOfRefl(rows);
    }
  }

  /** The rules keep, in order, exactly the rows that satisfy every active
      rule. */
  lemma {:induction false} ApplyRulesSpec(rows: seq<Row>, rules: seq<FilterRule>)
    ensures SubseqOf(ApplyRules(rows, rules), rows)
    ensures forall r :: r in ApplyRules(rows, rules) <==> r in rows && PassesRules(r, rules)
  {
    if rules == [] {
      SubseqOfRefl(rows);
    } else {
      var front, rule := rules[..|rules| - 1], rules[|rules| - 1];
      var data := ApplyRules(rows, front);
      ApplyRulesSpec(rows, front);
      if RuleActive(rule) {
        FilterIsSubseq(data, RuleMatch(rule));
        FilterMembership(data, RuleMatch(rule));
        SubseqOfTrans(Filter(data, RuleMatch(rule)), data, rows);
      }
      forall r ensures PassesRules(r, rules) <==> PassesRules(r, front) && (RuleActive(rule) ==> RuleMatches(r, rule))
      {
        PassesRulesLast(r, rules);
      }
    }
  }

  lemma PassesRulesLast(r: Row, rules: seq<FilterRule>)
    requires rules != []
    ensures PassesRules(r, rules) <==>
      PassesRules(r, rules[..|rules| - 1]) && (RuleActive(rules[|rules| - 1]) ==> RuleMatches(r, rules[|rules| - 1]))
  {
    var front := rules[..|rules| - 1];
    assert forall i :: 0 <= i < |front| ==> front[i] == rules[i];
  }

  /** A row passes `equals` exactly when it fails `not_equals` with the same
      column and value, so the two rules split any list of rows. */
  lemma {:induction false} EqualsSplitsRows(rows: seq<Row>, column: string, value: string)
    ensures |Filter(rows, RuleMatch(FilterRule(column, Equals, value)))|
          + |Filter(rows, RuleMatch(FilterRule(column, NotEquals, value)))| == |rows|
  {
    FilterComplement(rows, RuleMatch(FilterRule(column, Equals, value)), RuleMatch(FilterRule(column, NotEquals, value)));
  }

  /** `greater` and `less` keep a row only when both sides parse and the
      comparison holds; no row passes both with the same value, and a
      row whose cell does not parse passes neither. */
  lemma ComparisonRules(row: Row, column: string, value: string)
    ensures var cell := Lower(StrOf(GetOr(row, column, Str(""))));
      && (RuleMatches(row, FilterRule(column, Greater, value)) <==>
            AsFloat(cell).Some? && AsFloat(Lower(value)).Some? && AsFloat(cell).value > AsFloat(Lower(value)).value)
      && !(RuleMatches(row, FilterRule(column, Greater, value)) && RuleMatches(row, FilterRule(column, Less, value)))
      && (AsFloat(cell).None? ==>
            !RuleMatches(row, FilterRule(column, Greater, value)) && !RuleMatches(row, FilterRule(column, Less, value)))
  {
  }

  /** Sorting is a stable permutation ordered by the row keys. */
  lemma SortedRowsSpec(rows: seq<Row>, column: string, direction: SortDirection)
    ensures multiset(SortedRows(rows, column, direction)) == multiset(rows)
    ensures forall i, j :: 0 <= i < j < |SortedRows(rows, column, direction)| ==>
      InOrder(RowKey(SortedRows(rows, column, direction)[i], column), RowKey(SortedRows(rows, column, direction)[j], column), direction == Desc)
    ensures forall k :: WithKey(SortedRows(rows, column, direction), SortKeyOf(column), k) == WithKey(rows, SortKeyOf(column), k)
  {
    var r := SortedRows(rows, column, direction);
    forall i, j | 0 <= i < j < |r|
      ensures InOrder(RowKey(r[i], column), RowKey(r[j], column), direction == Desc)
    {
      assert InOrder(SortKeyOf(column)(r[i]), SortKeyOf(column)(r[j]), direction == Desc);
    }
  }

  /** A row without the sort column reads as `+inf`: ascending, such rows
      come after every other row; descending, before every other row. */
  lemma MissingSortPosition(rows: seq<Row>, column: string, direction: SortDirection, i: nat, j: nat)
    requires i < j < |SortedRows(rows, column, direction)|
    ensures var r := SortedRows(rows, column, direction);
      && (direction == Asc && Get(r[i], column) == Null ==> Get(r[j], column) == Null)
      && (direction == Desc && Get(r[j], column) == Null ==> Get(r[i], column) == Null)
  {
    var r := SortedRows(rows, column, direction);
    assert InOrder(SortKeyOf(column)(r[i]), SortKeyOf(column)(r[j]), direction == Desc);
  }

  /** The query result is a rearrangement of the rows that pass the search
      and every active rule, and keeps their order when nothing is
      sorted. */
  lemma {:induction false} QuerySpec(rows: seq<Row>, term: string, rules: seq<FilterRule>, column: string,
                                     direction: SortDirection)
    ensures multiset(Query(rows, term, rules, column, direction)) <= multiset(rows)
    ensures column == "" ==> SubseqOf(Query(rows, term, rules, column, direction), rows)
    ensures forall r :: r in Query(rows, term, rules, column, direction) <==>
      && r in rows
      && (term == "" || MatchesSearch(r, term))
      && PassesRules(r, rules)
  {
    var searched := Searched(rows, term);
    var data := ApplyRules(searched, rules);
    SearchedSpec(rows, term);
    ApplyRulesSpec(searched, rules);
    SubseqOfTrans(data, searched, rows);
    SubseqOfMultiset(data, rows);
    if column != "" {
      var sorted := SortedRows(data, column, direction);
      forall r ensures r in sorted <==> r in data {
        assert r in multiset(sorted) <==> r in multiset(data);
      }
    }
  }

  // ---------------------------------------------------------------------
  // DataProcessor
  // ---------------------------------------------------------------------

  /** The processor: the dataset, the current settings and the cache of the
      last evaluated query. */
  class DataProcessor {
    const dataset: Dataset
    var cache: Option<seq<Row>>
    var searchTerm: string
    var filterRules: seq<FilterRule>
    var sortColumn: string
    var sortDirection: SortDirection

    /** The query the current settings describe. */
    function Current(): seq<Row>
      reads this
    {
      Query(dataset.rows, searchTerm, filterRules, sortColumn, sortDirection)
    }

    /** A filled cache always holds the query of the current settings. */
    ghost predicate Valid()
      reads this
    {
      cache.Some? ==> cache.value == Current()
    }

    constructor(dataset: Dataset)
      ensures this.dataset == dataset && cache == None
      ensures searchTerm == "" && filterRules == [] && sortColumn == "" && sortDirection == Asc
      ensures Valid()
    {
      this.dataset := dataset;
      cache := None;
      searchTerm := "";
      filterRules := [];
      sortColumn := "";
      sortDirection := Asc;
    }

    /** `_apply_all_filters`: fills the cache with the current query. */
    method ApplyAllFilters()
      modifies this`cache
      ensures cache == Some(Current())
    {
      var data := Searched(dataset.rows, searchTerm);
      var i := 0;
      while i < |filterRules|
        invariant 0 <= i <= |filterRules|
        invariant data == ApplyRules(Searched(dataset.rows, searchTerm), filterRules[..i])
      {
        assert filterRules[..i + 1][..i] == filterRules[..i];
        var rule := filterRules[i];
        if rule.column != "" && rule.value != "" {
          data := Filter(data, RuleMatch(rule));
        }
        i := i + 1;
      }
      assert filterRules[..|filterRules|] == filterRules;
      if sortColumn != "" {
        data := SortedRows(data, sortColumn, sortDirection);
      }
      cache := Some(data);
    }

    /** The `filtered_rows` property: evaluates the query when the cache is
        empty, and returns the current query either way. */
    method FilteredRows() returns (rows: seq<Row>)
      requires Valid()
      modifies this`cache
      ensures Valid() && rows == Current()
    {
      if cache.None? {
        ApplyAllFilters();
      }
      rows := cache.value;
    }

    /** `total_filtered_rows` */
    method TotalFilteredRows() returns (n: nat)
      requires Valid()
      modifies this`cache
      ensures Valid() && n == |Current()|
    {
      var rows := FilteredRows();
      n := |rows|;
    }

    /** `set_search_term`: the term is stored lowercased. */
    method SetSearchTerm(term: string)
      modifies this
      ensures searchTerm == Lower(term) && cache == None
      ensures filterRules == old(filterRules) && sortColumn == old(sortColumn) && sortDirection == old(sortDirection)
      ensures Valid()
    {
      searchTerm := Lower(term);
      cache := None;
    }

    /** `add_filter_rule` */
    method AddFilterRule(rule: FilterRule)
      modifies this
      ensures filterRules == old(filterRules) + [rule] && cache == None
      ensures searchTerm == old(searchTerm) && sortColumn == old(sortColumn) && sortDirection == old(sortDirection)
      ensures Valid()
    {
      filterRules := filterRules + [rule];
      cache := None;
    }

    /** `remove_filter_rule`: an index out of range changes nothing. */
    method RemoveFilterRule(index: int)
      requires Valid()
      modifies this
      ensures 0 <= index < |old(filterRules)| ==>
        filterRules == old(filterRules)[..index] + old(filterRules)[index + 1..] && cache == None
      ensures !(0 <= index < |old(filterRules)|) ==> filterRules == old(filterRules) && cache == old(cache)
      ensures searchTerm == old(searchTerm) && sortColumn == old(sortColumn) && sortDirection == old(sortDirection)
      ensures Valid()
    {
      if 0 <= index < |filterRules| {
        filterRules := filterRules[..index] + filterRules[index + 1..];
        cache := None;
      }
    }

    /** `update_filter_rule`: an index out of range changes nothing. */
    method UpdateFilterRule(index: int, rule: FilterRule)
      requires Valid()
      modifies this
      ensures 0 <= index < |old(filterRules)| ==> filterRules == old(filterRules)[index := rule] && cache == None
      ensures !(0 <= index < |old(filterRules)|) ==> filterRules == old(filterRules) && cache == old(cache)
      ensures searchTerm == old(searchTerm) && sortColumn == old(sortColumn) && sortDirection == old(sortDirection)
      ensures Valid()
    {
      if 0 <= index < |filterRules| {
        filterRules := filterRules[index := rule];
        cache := None;
      }
    }

    /** `set_sort` */
    method SetSort(column: string, direction: SortDirection)
      modifies this
      ensures sortColumn == column && sortDirection == direction && cache == None
      ensures searchTerm == old(searchTerm) && filterRules == old(filterRules)
      ensures Valid()
    {
      sortColumn := column;
      sortDirection := direction;
      cache := None;
    }

    /** `clear_all_filters`: back to the settings of a new processor, whose
        query is the whole dataset in its original order. */
    method ClearAllFilters()
      modifies this
      ensures searchTerm == "" && filterRules == [] && sortColumn == "" && sortDirection == Asc
      ensures cache == None && Valid()
      ensures Current() == dataset.rows
    {
      searchTerm := "";
      filterRules := [];
      sortColumn := "";
      sortDirection := Asc;
      cache := None;
    }
  }

  // ---------------------------------------------------------------------
  // remove_duplicates
  // ---------------------------------------------------------------------

  /** `remove_duplicates`: keeps the first of each group of equal rows. */
  method RemoveDuplicates(rows: seq<Row>) returns (unique: seq<Row>)
    ensures unique == DistinctBy(rows, EqClass)
  {
    var seen: set<map<string, Cell>> := {};
    unique := [];
    for i := 0 to |rows|
      invariant seen == Seen(rows[..i], EqClass)
      invariant unique == DistinctBy(rows[..i], EqClass)
    {
      assert rows[..i + 1][..i] == rows[..i];
      var key := EqClass(rows[i]);
      if key !in seen {
        seen := seen + {key};
        unique := unique + [rows[i]];
      }
    }
    assert rows[..|rows|] == rows;
  }

  /** What the deduplicated rows are: an order-preserving selection with no
      two equal rows, an equal row for every input row, and a fixed point
      of deduplication. */
  lemma DeduplicatedSpec(rows: seq<Row>)
    ensures SubseqOf(DistinctBy(rows, EqClass), rows)
    ensures forall i, j :: 0 <= i < j < |DistinctBy(rows, EqClass)| ==>
      EqClass(DistinctBy(rows, EqClass)[i]) != EqClass(DistinctBy(rows, EqClass)[j])
    ensures forall r :: r in rows ==> exists u :: u in DistinctBy(rows, EqClass) && EqClass(u) == EqClass(r)
    ensures DistinctBy(DistinctBy(rows, EqClass), EqClass) == DistinctBy(rows, EqClass)
  {
    var d := DistinctBy(rows, EqClass);
    DistinctByProps(rows, EqClass);
    DistinctByIdempotent(rows, EqClass);
    forall r | r in rows ensures exists u :: u in d && EqClass(u) == EqClass(r)
    {
      SeenIff(rows, EqClass, EqClass(r));
      SeenIff(d, EqClass, EqClass(r));
      var j :| 0 <= j < |d| && EqClass(d[j]) == EqClass(r);
      assert d[j] in d;
    }
  }

  // ---------------------------------------------------------------------
  // handle_missing_values
  // ---------------------------------------------------------------------

  /** Python's `a or b` on cells. */
  function Or(a: Cell, b: Cell): Cell
  {
    if Truthy(a) then a else b
  }

  /** `[{**row, column: row.get(column) or v} for row in rows]` */
  function FillFalsy(rows: seq<Row>, column: string, v: Cell): (r: seq<Row>)
    ensures |r| == |rows|
  {
    seq(|rows|, i requires 0 <= i < |rows| => Set(rows[i], column, Or(Get(rows[i], column), v)))
  }

  /** Filling changes only the target column, replaces exactly its falsy
      cells, leaves no falsy cell when the filler is truthy, and filling
      again with the same value changes nothing more. */
  lemma FillFalsySpec(rows: seq<Row>, column: string, v: Cell)
    ensures forall i, k :: 0 <= i < |rows| && k != column ==> Get(FillFalsy(rows, column, v)[i], k) == Get(rows[i], k)
    ensures forall i :: 0 <= i < |rows| && Truthy(Get(rows[i], column)) ==>
      Get(FillFalsy(rows, column, v)[i], column) == Get(rows[i], column)
    ensures forall i :: 0 <= i < |rows| && !Truthy(Get(rows[i], column)) ==>
      Get(FillFalsy(rows, column, v)[i], column) == v
    ensures Truthy(v) ==> forall i :: 0 <= i < |rows| ==> Truthy(Get(FillFalsy(rows, column, v)[i], column))
    ensures FillFalsy(FillFalsy(rows, column, v), column, v) == FillFalsy(rows, column, v)
  {
    var once := FillFalsy(rows, column, v);
    var twice := FillFalsy(once, column, v);
    forall i | 0 <= i < |rows| ensures twice[i] == once[i]
    {
      var c := Get(rows[i], column);
      SetSet(rows[i], column, Or(c, v), Or(Or(c, v), v));
      assert Or(Or(c, v), v) == Or(c, v);
    }
  }

  /** `[row.get(column) for row in rows if row.get(column) is not None and
      row.get(column) != '']` */
  function PresentValues(rows: seq<Row>, column: string): seq<Cell>
  {
    Clean(ColumnValues(rows, column))
  }

  /** The parsed non-missing numbers of a column, as the `mean` branch and
      `remove_outliers` collect them. */
  function NumericValues(rows: seq<Row>, column: string): seq<real>
  {
    Parsed(ColumnValues(rows, column))
  }

  /** `handle_missing_values` as a value. */
  function MissingHandled(rows: seq<Row>, column: string, how: string, fill: Cell): seq<Row>
  {
    if how == "remove" then Filter(rows, HasValue(column))
    else if how == "fill" && fill != Null then FillFalsy(rows, column, fill)
    else if how == "mean" then
      var values := NumericValues(rows, column);
      if values != [] then FillFalsy(rows, column, Num(Mean(values))) else rows
    else if how == "mode" then
      var values := PresentValues(rows, column);
      if values != [] then FillFalsy(rows, column, Mode(values).0) else rows
    else rows
  }

  /** `row.get(column) is not None and row.get(column) != ''` */
  function HasValue(column: string): Row -> bool
  {
    row => !IsMissing(Get(row, column))
  }

  lemma ColumnValuesPrefix(rows: seq<Row>, column: string, i: nat)
    requires i < |rows|
    ensures ColumnValues(rows[..i + 1], column) == ColumnValues(rows[..i], column) + [Get(rows[i], column)]
  {
  }

  /** The loop that collects `float(val)` for every non-missing value. */
  method CollectNumbers(rows: seq<Row>, column: string) returns (values: seq<real>)
    ensures values == NumericValues(rows, column)
  {
    values := [];
    for i := 0 to |rows|
      invariant values == Parsed(ColumnValues(rows[..i], column))
    {
      ColumnValuesPrefix(rows, column, i);
      var vs := ColumnValues(rows[..i + 1], column);
      assert vs[..|vs| - 1] == ColumnValues(rows[..i], column);
      var val := Get(rows[i], column);
      if val != Null && val != Str("") {
        var f := Float(val);
        if f.Some? {
          values := values + [f.value];
        }
      }
    }
    assert rows[..|rows|] == rows;
  }

  /** `handle_missing_values`. */
  method HandleMissingValues(rows: seq<Row>, column: string, how: string, fill: Cell) returns (result: seq<Row>)
    ensures result == MissingHandled(rows, column, how, fill)
  {
    if how == "remove" {
      return Filter(rows, HasValue(column));
    } else if how == "fill" && fill != Null {
      return FillFalsy(rows, column, fill);
    } else if how == "mean" {
      var values := CollectNumbers(rows, column);
      if values != [] {
        var meanVal := Sum(values) / |values| as real;
        return FillFalsy(rows, column, Num(meanVal));
      }
    } else if how == "mode" {
      var values := PresentValues(rows, column);
      if values != [] {
        return FillFalsy(rows, column, Mode(values).0);
      }
    }
    return rows;
  }

  /** `remove` keeps, in order, exactly the rows with a value in the
      column. */
  lemma {:induction false} MissingRemoveSpec(rows: seq<Row>, column: string)
    ensures SubseqOf(MissingHandled(rows, column, "remove", Null), rows)
    ensures forall r :: r in MissingHandled(rows, column, "remove", Null) <==> r in rows && !IsMissing(Get(r, column))
  {
    FilterIsSubseq(rows, HasValue(column));
    FilterMembership(rows, HasValue(column));
  }

  /** An unknown method, `fill` without a value, or a column with nothing
      to average or count returns the rows unchanged. */
  lemma MissingUnchanged(rows: seq<Row>, column: string, how: string, fill: Cell)
    ensures how != "remove" && how != "fill" && how != "mean" && how != "mode" ==>
      MissingHandled(rows, column, how, fill) == rows
    ensures MissingHandled(rows, column, "fill", Null) == rows
    ensures NumericValues(rows, column) == [] ==> MissingHandled(rows, column, "mean", fill) == rows
    ensures PresentValues(rows, column) == [] ==> MissingHandled(rows, column, "mode", fill) == rows
  {
    assert |"fill"| != |"remove"| && |"mean"| != |"remove"| && |"mode"| != |"remove"|;
    assert "mean"[0] != "fill"[0] && "mode"[0] != "fill"[0] && "mode"[1] != "mean"[1];
  }

  /** The `mean` filler lies between the smallest and largest parsed
      value. */
  lemma {:induction false} MeanFiller(rows: seq<Row>, column: string)
    requires NumericValues(rows, column) != []
    ensures var values := NumericValues(rows, column);
      && MissingHandled(rows, column, "mean", Null) == FillFalsy(rows, column, Num(Mean(values)))
      && Min(values) <= Mean(values) <= Max(values)
  {
    MeanBetween(NumericValues(rows, column));
  }

  /** The `mode` filler is a present value of the column that no other
      value outnumbers. */
  lemma {:induction false} ModeFiller(rows: seq<Row>, column: string)
    requires PresentValues(rows, column) != []
    ensures var values := PresentValues(rows, column);
      && MissingHandled(rows, column, "mode", Null) == FillFalsy(rows, column, Mode(values).0)
      && Mode(values).0 in values && !IsMissing(Mode(values).0)
      && forall x :: x in values ==> Count(values, Key(x)) <= Count(values, Key(Mode(values).0))
  {
    var values := PresentValues(rows, column);
    ModeIsMostFrequent(values);
    FilterMembership(ColumnValues(rows, column), Present);
  }

  // ---------------------------------------------------------------------
  // standardize_text
  // ---------------------------------------------------------------------

  /** `re.sub(r'\s+', ' ', value.strip().lower())` for a string; any other
      value passes through. */
  function StandardizeValue(c: Cell): Cell
  {
    if c.Str? then Str(CollapseWhitespace(Lower(Strip(c.s)))) else c
  }

  /** `standardize_text` */
  function StandardizeText(rows: seq<Row>, column: string): (r: seq<Row>)
    ensures |r| == |rows|
  {
    seq(|rows|, i requires 0 <= i < |rows| => Set(rows[i], column, StandardizeValue(Get(rows[i], column))))
  }

  /** A standardised string has no whitespace at either end, no uppercase
      letter, and no whitespace but single spaces. */
  predicate Standard(s: string)
  {
    Strip(s) == s && IsLower(s) && SingleSpaced(s)
  }

  lemma LowerFixed(s: string)
    requires IsLower(s)
    ensures Lower(s) == s
  {
  }

  /** Lowercasing keeps a string free of whitespace at both ends. */
  lemma LowerKeepsEnds(s: string)
    requires s == [] || (!IsSpace(s[0]) && !IsSpace(s[|s| - 1]))
    ensures Lower(s) == [] || (!IsSpace(Lower(s)[0]) && !IsSpace(Lower(s)[|s| - 1]))
  {
    LowerIdempotent(s);
    if s != [] {
      assert IsSpace(Lower(s)[0]) <==> IsSpace(s[0]);
      assert IsSpace(Lower(s)[|s| - 1]) <==> IsSpace(s[|s| - 1]);
    }
  }

  /** Any string standardises to one in standard form. */
  lemma {:induction false} StandardForm(s: string)
    ensures Standard(CollapseWhitespace(Lower(Strip(s))))
  {
    var stripped := Strip(s);
    var lowered := Lower(stripped);
    var r := CollapseWhitespace(lowered);
    LowerKeepsEnds(stripped);
    LowerIdempotent(stripped);
    CollapseKeepsLower(lowered);
    StripUnchanged(r);
  }

  /** A string in standard form standardises to itself. */
  lemma {:induction false} StandardFixed(s: string)
    requires Standard(s)
    ensures CollapseWhitespace(Lower(Strip(s))) == s
  {
    LowerFixed(s);
    CollapseUnchanged(s);
  }

  /** A standardised string is in standard form, and standardising it
      again changes nothing. */
  lemma {:induction false} StandardizeValueSpec(c: Cell)
    ensures StandardizeValue(c).Str? <==> c.Str?
    ensures c.Str? ==> Standard(StandardizeValue(c).s)
    ensures StandardizeValue(StandardizeValue(c)) == StandardizeValue(c)
  {
    if c.Str? {
      var r := StandardizeValue(c).s;
      StandardForm(c.s);
      StandardFixed(r);
    }
  }

  /** `standardize_text` keeps the row count and every other column, leaves
      every string of the column in standard form, and is idempotent. */
  lemma StandardizeTextSpec(rows: seq<Row>, column: string)
    ensures forall i, k :: 0 <= i < |rows| && k != column ==> Get(StandardizeText(rows, column)[i], k) == Get(rows[i], k)
    ensures forall i :: 0 <= i < |rows| && Get(StandardizeText(rows, column)[i], column).Str? ==>
      Standard(Get(StandardizeText(rows, column)[i], column).s)
    ensures StandardizeText(StandardizeText(rows, column), column) == StandardizeText(rows, column)
  {
    var once := StandardizeText(rows, column);
    var twice := StandardizeText(once, column);
    forall i | 0 <= i < |rows|
      ensures twice[i] == once[i]
      ensures Get(once[i], column).Str? ==> Standard(Get(once[i], column).s)
    {
      var c := Get(rows[i], column);
      StandardizeValueSpec(c);
      SetSet(rows[i], column, StandardizeValue(c), StandardizeValue(StandardizeValue(c)));
    }
  }

  // ---------------------------------------------------------------------
  // remove_outliers
  // ---------------------------------------------------------------------

  /** `is_not_outlier`: a missing or unparseable value is kept; a number is
      kept when it lies inside the fence, bounds included. */
  predicate Inlier(row: Row, column: string, b: (real, real))
  {
    var v := SafeParseNumber(Get(row, column));
    v.None? || b.0 <= v.value <= b.1
  }

  function InlierOf(column: string, b: (real, real)): Row -> bool
  {
    row => Inlier(row, column, b)
  }

  /** `remove_outliers` as a value. */
  function OutliersRemoved(rows: seq<Row>, column: string): seq<Row>
  {
    var values := NumericValues(rows, column);
    if values == [] then rows else Filter(rows, InlierOf(column, IqrBounds(values)))
  }

  /** `remove_outliers`. */
  method RemoveOutliers(rows: seq<Row>, column: string) returns (result: seq<Row>)
    ensures result == OutliersRemoved(rows, column)
  {
    var values := CollectNumbers(rows, column);
    if values == [] {
      return rows;
    }
    var sortedValues := Stats.Sorted(values);
    var n := |sortedValues|;
    var q1 := sortedValues[n / 4];
    var q3 := sortedValues[(3 * n) / 4];
    assert q1 == Stats.LowerQuartile(values) && q3 == Stats.UpperQuartile(values);
    var iqr := q3 - q1;
    var lowerBound := q1 - 1.5 * iqr;
    var upperBound := q3 + 1.5 * iqr;
    var fence := (lowerBound, upperBound);
    assert fence == IqrBounds(values);
    result := Filter(rows, InlierOf(column, fence));
  }

  /** The parsed values of a column grow by the last row's number, if it
      has one. */
  lemma NumericValuesLast(rows: seq<Row>, column: string)
    requires rows != []
    ensures var last := SafeParseNumber(Get(rows[|rows| - 1], column));
      NumericValues(rows, column) == NumericValues(rows[..|rows| - 1], column) + (if last.Some? then [last.value] else [])
  {
    ColumnValuesPrefix(rows, column, |rows| - 1);
    assert rows[..|rows|] == rows;
    var vs := ColumnValues(rows, column);
    assert vs[..|vs| - 1] == ColumnValues(rows[..|rows| - 1], column);
  }

  lemma OutsideOne(x: real, b: (real, real))
    ensures |Filter([x], OutsideFence(b))| == if Outside(b, x) then 1 else 0
  {
    assert [x][..0] == [];
  }

  /** The rows dropped for a fence are as many as the parsed values outside
      it. */
  lemma {:induction false} InlierCount(rows: seq<Row>, column: string, b: (real, real))
    ensures |Filter(rows, InlierOf(column, b))| + |Filter(NumericValues(rows, column), OutsideFence(b))| == |rows|
  {
    if rows != [] {
      var front := rows[..|rows| - 1];
      InlierCount(front, column, b);
      NumericValuesLast(rows, column);
      var last := SafeParseNumber(Get(rows[|rows| - 1], column));
      assert |Filter(rows, InlierOf(column, b))| ==
        |Filter(front, InlierOf(column, b))| + (if Inlier(rows[|rows| - 1], column, b) then 1 else 0);
      var numbers := NumericValues(front, column);
      if last.Some? {
        assert Inlier(rows[|rows| - 1], column, b) <==> !Outside(b, last.value);
        FilterAppend(numbers, [last.value], OutsideFence(b));
        OutsideOne(last.value, b);
        assert |Filter(NumericValues(rows, column), OutsideFence(b))| ==
          |Filter(numbers, OutsideFence(b))| + (if Outside(b, last.value) then 1 else 0);
      } else {
        assert Inlier(rows[|rows| - 1], column, b);
        assert NumericValues(rows, column) == numbers;
      }
    }
  }

  /** `remove_outliers` keeps, in order, the rows with a missing or
      unparseable value and those whose number lies inside the IQR fence of
      the column, bounds included; it drops as many rows as
      `detect_outliers` reports for the column, and returns the rows
      unchanged when nothing parses. */
  lemma {:induction false} OutliersRemovedSpec(rows: seq<Row>, column: string)
    ensures SubseqOf(OutliersRemoved(rows, column), rows)
    ensures NumericValues(rows, column) == [] ==> OutliersRemoved(rows, column) == rows
    ensures NumericValues(rows, column) != [] ==> forall r :: r in OutliersRemoved(rows, column) <==>
      r in rows && Inlier(r, column, IqrBounds(NumericValues(rows, column)))
    ensures |OutliersRemoved(rows, column)| + |DetectOutliers(NumericValues(rows, column))| == |rows|
  {
    var values := NumericValues(rows, column);
    if values == [] {
      SubseqOfRefl(rows);
    } else {
      var b := IqrBounds(values);
      FilterIsSubseq(rows, InlierOf(column, b));
      FilterMembership(rows, InlierOf(column, b));
      InlierCount(rows, column, b);
    }
  }
}
