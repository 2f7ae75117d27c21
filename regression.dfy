/** `DataAnalyzer.create_prediction_model`: a least-squares line through the
    rows' (feature, target) pairs, its R² as an accuracy percentage and the
    first 50 fitted points; and `calculate_feature_importance`: the other
    numeric columns ranked by the size of their correlation with the
    target. */
module Regression {
  import opened Values
  import opened Rows
  import opened Seqs
  import opened Sorting
  import opened Stats
  import opened Types
  import opened DataUtils
  import opened Analytics

  /** One entry of a model's `predictions` list. */
  datatype Prediction = Prediction(actual: real, predicted: real, feature: real)

  /** The model dictionary; `kind` is its `type` entry. */
  datatype Model = Model(kind: string, target: string, features: seq<string>, accuracy: real,
                         predictions: seq<Prediction>, slope: real, intercept: real)

  function Xs(ps: seq<(real, real)>): seq<real>
  {
    Map(ps, Fst)
  }

  function Ys(ps: seq<(real, real)>): seq<real>
  {
    Map(ps, Snd)
  }

  /** The least-squares slope `(n*Σxy - Σx*Σy) / (n*Σx² - (Σx)²)`. */
  function Slope(ps: seq<(real, real)>): real
    requires Spread(Xs(ps)) != 0.0
  {
    CoSpread(ps) / Spread(Xs(ps))
  }

  /** The intercept `(Σy - a*Σx) / n` that goes with the slope `a`. */
  function Intercept(ps: seq<(real, real)>, a: real): real
    requires ps != []
  {
    (Sum(Ys(ps)) - a * Sum(Xs(ps))) / |ps| as real
  }

  /** The total sum of squares `Σ(y - mean_y)²`. */
  function TotalSquares(ps: seq<(real, real)>): real
    requires ps != []
  {
    SqDist(Ys(ps), Sum(Ys(ps)) / |ps| as real)
  }

  /** `1 - SSres/SStot`, or 0 when the total sum of squares is not
      positive. */
  function RSquared(ps: seq<(real, real)>, a: real, b: real): real
    requires ps != []
  {
    var total := TotalSquares(ps);
    if total > 0.0 then 1.0 - Residuals(ps, a, b) / total else 0.0
  }

  /** The prediction for one pair on the line `a*x + b`. */
  function PredictionOf(p: (real, real), a: real, b: real): Prediction
  {
    Prediction(p.1, a * p.0 + b, p.0)
  }

  function Predictor(a: real, b: real): ((real, real)) -> Prediction
  {
    p => PredictionOf(p, a, b)
  }

  /** The model's predictions are the first 50 pairs, each with the
      model's line's value at its feature. */
  predicate PredictsPairs(m: Model, ps: seq<(real, real)>)
  {
    && |m.predictions| == (if |ps| < 50 then |ps| else 50)
    && forall i :: 0 <= i < |m.predictions| ==>
         m.predictions[i] == Prediction(ps[i].1, m.slope * ps[i].0 + m.intercept, ps[i].0)
  }

  /** The model for the line `a*x + b` through the pairs: it lists the
      first 50 pairs with the line's value at each, and its accuracy is
      the line's `R^2` in percent. */
  function ModelOf(ps: seq<(real, real)>, target: string, feature: string, a: real, b: real): (m: Model)
    requires ps != []
    ensures m.kind == "linear_regression"
    ensures m.target == target && m.features == [feature] && m.slope == a && m.intercept == b
    ensures PredictsPairs(m, ps)
    ensures m.accuracy == RSquared(ps, a, b) * 100.0
  {
    var first := PyPrefix(ps, 50);
    var predictions := Map(first, Predictor(a, b));
    assert forall i :: 0 <= i < |predictions| ==> first[i] == ps[i] && predictions[i] == PredictionOf(first[i], a, b);
    Model("linear_regression", target, [feature], RSquared(ps, a, b) * 100.0, predictions, a, b)
  }

  /** The fit of the line through at least 10 pairs; `None` exactly when
      every feature value is the same, which zeroes the denominator.
      Otherwise the model carries the least-squares slope and its
      intercept, a line through the two means, and its `R^2` in percent. */
  function Fit(ps: seq<(real, real)>, target: string, feature: string): (r: Option<Model>)
    requires |ps| >= 10
    ensures r.None? <==> Constant(Xs(ps))
    ensures r.Some? ==> r.value.target == target && r.value.features == [feature] && PredictsPairs(r.value, ps)
    ensures r.Some? ==> LeastSquares(r.value, ps)
  {
    SpreadZero(Xs(ps));
    if Spread(Xs(ps)) == 0.0 then None
    else
      var a := Slope(ps);
      Some(ModelOf(ps, target, feature, a, Intercept(ps, a)))
  }

  /** The model carries the least-squares slope of the pairs, the
      intercept that goes with it, and the line's `R^2` in percent. */
  predicate LeastSquares(m: Model, ps: seq<(real, real)>)
  {
    && ps != [] && Spread(Xs(ps)) != 0.0
    && m.slope == Slope(ps)
    && m.intercept == Intercept(ps, m.slope)
    && m.accuracy == RSquared(ps, m.slope, m.intercept) * 100.0
  }

  /** A least-squares model's line passes through the two means, and its
      accuracy is at most 100, and 0 for a constant target. */
  lemma LeastSquaresProps(m: Model, ps: seq<(real, real)>)
    requires LeastSquares(m, ps)
    ensures m.slope * Mean(Xs(ps)) + m.intercept == Mean(Ys(ps))
    ensures m.accuracy <= 100.0
    ensures Constant(Ys(ps)) ==> m.accuracy == 0.0
  {
    LineThroughMeans(ps, m.slope);
    RSquaredBounds(ps, m.slope, m.intercept);
  }

  /** The model `create_prediction_model` returns draws its line through
      the means of the feature and target values, with an accuracy of at
      most 100 and of 0 for a constant target. */
  lemma PredictionModelFit(ds: Dataset, target: string, features: seq<string>, m: Model, ps: seq<(real, real)>)
    requires PredictionModel(ds, target, features) == Some(m)
    requires features != [] && ps == Pairs(ds.rows, features[0], target)
    ensures m.slope * Mean(Xs(ps)) + m.intercept == Mean(Ys(ps))
    ensures m.accuracy <= 100.0
    ensures Constant(Ys(ps)) ==> m.accuracy == 0.0
  {
    LeastSquaresProps(m, ps);
  }

  /** `create_prediction_model` as a value: only the first feature is used;
      a model names the target and that feature, and lists the first 50
      pairs with the fitted line's value at each. */
  function PredictionModel(ds: Dataset, target: string, features: seq<string>): (r: Option<Model>)
    ensures r.Some? ==> && features != [] && r.value.target == target && r.value.features == [features[0]]
                        && PredictsPairs(r.value, Pairs(ds.rows, features[0], target))
    ensures r.Some? ==> |Pairs(ds.rows, features[0], target)| >= 10 && LeastSquares(r.value, Pairs(ds.rows, features[0], target))
  {
    if features == [] then None
    else
      var ps := Pairs(ds.rows, features[0], target);
      if |ps| < 10 then None else Fit(ps, target, features[0])
  }

  /** The loop over `pairs[:50]` that builds the predictions. */
  method Predict(ps: seq<(real, real)>, a: real, b: real) returns (predictions: seq<Prediction>)
    ensures predictions == Map(PyPrefix(ps, 50), Predictor(a, b))
  {
    var first := if |ps| > 50 then ps[..50] else ps;
    predictions := [];
    for i := 0 to |first|
      invariant predictions == Map(first[..i], Predictor(a, b))
    {
      var (x, y) := first[i];
      var p := Prediction(y, a * x + b, x);
      assert p == Predictor(a, b)(first[i]);
      assert Map(first[..i + 1], Predictor(a, b)) == predictions + [p];
      predictions := predictions + [p];
    }
    assert first[..|first|] == first;
  }

  /** `create_prediction_model` */
  method CreatePredictionModel(ds: Dataset, target: string, features: seq<string>) returns (model: Option<Model>)
    ensures model == PredictionModel(ds, target, features)
  {
    if features == [] {
      return None;
    }
    var feature := features[0];
    var ps := CollectPairs(ds.rows, feature, target);
    if |ps| < 10 {
      return None;
    }
    model := FitModel(ps, target, feature);
  }

  /** The regression itself, from the pairs on. */
  method FitModel(ps: seq<(real, real)>, target: string, feature: string) returns (model: Option<Model>)
    requires |ps| >= 10
    ensures model == Fit(ps, target, feature)
  {
    var denominator := Spread(Xs(ps));
    if denominator == 0.0 {
      return None;
    }
    var slope := Slope(ps);
    var intercept := Intercept(ps, slope);
    var predictions := Predict(ps, slope, intercept);
    model := Some(Model("linear_regression", target, [feature], RSquared(ps, slope, intercept) * 100.0,
                        predictions, slope, intercept));
  }

  /** No model exactly when there is no feature, fewer than 10 rows have
      both values, or the feature takes a single value. */
  lemma PredictionModelNone(ds: Dataset, target: string, features: seq<string>)
    ensures PredictionModel(ds, target, features).None? <==>
      || features == []
      || |Pairs(ds.rows, features[0], target)| < 10
      || Constant(Xs(Pairs(ds.rows, features[0], target)))
  {
    if features != [] {
      SpreadZero(Xs(Pairs(ds.rows, features[0], target)));
    }
  }

  // ---------------------------------------------------------------------
  // Properties of the least-squares line
  // ---------------------------------------------------------------------

  /** The total sum of squares is never negative, and is zero exactly when
      every target is the same. */
  lemma TotalSquaresZero(ps: seq<(real, real)>)
    requires ps != []
    ensures TotalSquares(ps) >= 0.0
    ensures TotalSquares(ps) == 0.0 <==> Constant(Ys(ps))
  {
    var ys := Ys(ps);
    TotalSquaresMean(ps);
    SqDistZero(ys, Mean(ys));
    SqDistMean(ys);
    SpreadZero(ys);
    ScaledZero(SqDist(ys, Mean(ys)), |ys| as real, Spread(ys));
  }

  lemma TotalSquaresMean(ps: seq<(real, real)>)
    requires ps != []
    ensures TotalSquares(ps) == SqDist(Ys(ps), Mean(Ys(ps)))
  {
    assert |Ys(ps)| == |ps|;
  }

  lemma ScaledZero(t: real, n: real, p: real)
    requires n > 0.0 && t * n == p
    ensures t == 0.0 <==> p == 0.0
  {
  }

  /** For any line the R² is at most 1, and it is 0 exactly when the
      targets do not vary: the accuracy never exceeds 100. */
  lemma RSquaredBounds(ps: seq<(real, real)>, a: real, b: real)
    requires ps != []
    ensures RSquared(ps, a, b) <= 1.0
    ensures Constant(Ys(ps)) ==> RSquared(ps, a, b) == 0.0
  {
    TotalSquaresZero(ps);
    ResidualsNonNegative(ps, a, b);
    var t := TotalSquares(ps);
    if t > 0.0 {
      DivBetween(Residuals(ps, a, b), t, 0.0, Residuals(ps, a, b) / t);
    }
  }

  /** The line with slope `a` and the intercept that goes with it passes
      through the point of means, whatever `a` is; in particular the
      fitted line does, and its residuals add up to zero. */
  lemma LineThroughMeans(ps: seq<(real, real)>, a: real)
    requires ps != []
    ensures ResidualSum(ps, a, Intercept(ps, a)) == 0.0
    ensures a * Mean(Xs(ps)) + Intercept(ps, a) == Mean(Ys(ps))
  {
    var b := Intercept(ps, a);
    var sx, sy, n := Sum(Xs(ps)), Sum(Ys(ps)), |ps| as real;
    assert b == (sy - a * sx) / n;
    ResidualSumExpand(ps, a, b);
    assert ResidualSum(ps, a, b) == sy - a * sx - n * b;
    assert |Xs(ps)| == |Ys(ps)| == |ps|;
    assert Mean(Xs(ps)) == sx / n && Mean(Ys(ps)) == sy / n;
    MeanLine(a, sx, sy, n, b);
  }

  lemma MeanLine(a: real, sx: real, sy: real, n: real, b: real)
    requires n > 0.0 && b == (sy - a * sx) / n
    ensures sy - a * sx - n * b == 0.0
    ensures a * (sx / n) + b == sy / n
  {
    DivMul(sy - a * sx, n);
    DivMul(sx, n);
    DivMul(sy, n);
    var mx, my := sx / n, sy / n;
    assert (a * mx + b) * n == my * n;
  }

  // ---------------------------------------------------------------------
  // Feature importance
  // ---------------------------------------------------------------------

  /** One entry of the importance list; its `type` entry is always
      `"correlation"`. */
  datatype Importance = Importance(feature: string, importance: real, kind: string)

  /** A candidate feature: a numeric column other than the target. */
  predicate IsFeature(col: DataColumn, target: string)
  {
    col.name != target && IsNumericColumn(col)
  }

  /** A candidate column gets an entry when it parses to as many numbers
      as the target. */
  predicate Qualifies(col: DataColumn, target: string, tv: seq<real>)
  {
    IsFeature(col, target) && |Parsed(col.values)| == |tv|
  }

  /** The entry of a column: its name and the size of its correlation
      with the target. */
  function Entry(col: DataColumn, tv: seq<real>): Importance
  {
    Importance(col.name, Abs(Correlation(Parsed(col.values), tv)), "correlation")
  }

  /** The entries of the candidate columns, in column order. */
  function Scores(cols: seq<DataColumn>, target: string, tv: seq<real>): seq<Importance>
  {
    if cols == [] then []
    else
      var col := cols[|cols| - 1];
      Scores(cols[..|cols| - 1], target, tv) + (if Qualifies(col, target, tv) then [Entry(col, tv)] else [])
  }

  function ImportanceKey(e: Importance): SortKey
  {
    Number(e.importance)
  }

  /** The parsed values of the target column, or `None` when the dataset has
      no column of that name or its first one is not numeric. */
  function TargetValues(ds: Dataset, target: string): Option<seq<real>>
  {
    var t := FindColumn(ds.columns, target);
    if t.Some? && IsNumericColumn(t.value) then Some(Parsed(t.value.values)) else None
  }

  /** `calculate_feature_importance` as a value: the entries sorted by
      decreasing importance (stably), or none when the target has no
      numeric values. */
  function FeatureImportance(ds: Dataset, target: string): seq<Importance>
  {
    var tv := TargetValues(ds, target);
    if tv.None? || tv.value == [] then [] else SortBy(Scores(ds.columns, target, tv.value), ImportanceKey, true)
  }

  /** `calculate_feature_importance` */
  method CalculateFeatureImportance(ds: Dataset, target: string) returns (scores: seq<Importance>)
    ensures scores == FeatureImportance(ds, target)
  {
    var targetCol := FindColumn(ds.columns, target);
    if targetCol.None? || targetCol.value.dtype != Numeric {
      return [];
    }
    var tv := Parsed(targetCol.value.values);
    if tv == [] {
      return [];
    }
    scores := ScoreColumns(ds.columns, target, tv);
    scores := SortBy(scores, ImportanceKey, true);
  }

  /** The loop over the columns that collects the entries. */
  method ScoreColumns(cols: seq<DataColumn>, target: string, tv: seq<real>) returns (scores: seq<Importance>)
    ensures scores == Scores(cols, target, tv)
  {
    scores := [];
    for i := 0 to |cols|
      invariant scores == Scores(cols[..i], target, tv)
    {
      var col := cols[i];
      if col.name != target && col.dtype == Numeric {
        var fv := Parsed(col.values);
        if |fv| == |tv| {
          scores := scores + [Importance(col.name, Abs(Correlation(fv, tv)), "correlation")];
        }
      }
      assert cols[..i + 1][..i] == cols[..i];
    }
    assert cols[..|cols|] == cols;
  }

  /** `e` is the entry of a qualifying column. */
  predicate ScoredFrom(e: Importance, cols: seq<DataColumn>, target: string, tv: seq<real>)
  {
    exists i :: 0 <= i < |cols| && Qualifies(cols[i], target, tv) && e == Entry(cols[i], tv)
  }

  /** The entries are exactly those of the qualifying columns, at most one
      per column. */
  lemma {:induction false} ScoresSpec(cols: seq<DataColumn>, target: string, tv: seq<real>)
    ensures |Scores(cols, target, tv)| <= |cols|
    ensures forall e :: e in Scores(cols, target, tv) <==> ScoredFrom(e, cols, target, tv)
  {
    if cols != [] {
      var front := cols[..|cols| - 1];
      ScoresSpec(front, target, tv);
      forall e ensures e in Scores(cols, target, tv) <==> ScoredFrom(e, cols, target, tv) {
        ScoredFromStep(e, cols, target, tv);
      }
    }
  }

  /** A column more: its entry, if it qualifies, joins the others. */
  lemma ScoredFromStep(e: Importance, cols: seq<DataColumn>, target: string, tv: seq<real>)
    requires cols != []
    ensures ScoredFrom(e, cols, target, tv) <==>
      ScoredFrom(e, cols[..|cols| - 1], target, tv) || (Qualifies(cols[|cols| - 1], target, tv) && e == Entry(cols[|cols| - 1], tv))
  {
    var front := cols[..|cols| - 1];
    if ScoredFrom(e, cols, target, tv) {
      var i :| 0 <= i < |cols| && Qualifies(cols[i], target, tv) && e == Entry(cols[i], tv);
      if i < |front| {
        assert front[i] == cols[i];
      }
    }
    if ScoredFrom(e, front, target, tv) {
      var i :| 0 <= i < |front| && Qualifies(front[i], target, tv) && e == Entry(front[i], tv);
      assert cols[i] == front[i];
    }
  }

  /** The target's absence, a non-numeric target or a target without
      numbers give no entries; otherwise the list holds exactly the entries
      of the qualifying columns (each of which names a column other than
      the target, with a non-negative importance), in non-increasing order
      of importance, with equal importances in column order. */
  lemma FeatureImportanceSpec(ds: Dataset, target: string)
    ensures TargetValues(ds, target).None? || TargetValues(ds, target).value == [] ==> FeatureImportance(ds, target) == []
    ensures TargetValues(ds, target).Some? && TargetValues(ds, target).value != [] ==>
      var tv := TargetValues(ds, target).value;
      var r := FeatureImportance(ds, target);
      && multiset(r) == multiset(Scores(ds.columns, target, tv))
      && (forall e :: e in r <==> ScoredFrom(e, ds.columns, target, tv))
      && (forall i, j :: 0 <= i < j < |r| ==> r[i].importance >= r[j].importance)
      && (forall k :: WithKey(r, ImportanceKey, k) == WithKey(Scores(ds.columns, target, tv), ImportanceKey, k))
  {
    var tv := TargetValues(ds, target);
    if tv.Some? && tv.value != [] {
      var r := FeatureImportance(ds, target);
      var s := Scores(ds.columns, target, tv.value);
      ScoresSpec(ds.columns, target, tv.value);
      forall e ensures e in r <==> e in s {
        assert e in r <==> e in multiset(r);
      }
      forall i, j | 0 <= i < j < |r| ensures r[i].importance >= r[j].importance {
        assert InOrder(ImportanceKey(r[i]), ImportanceKey(r[j]), true);
      }
    }
  }

  /** Every entry names a numeric column other than the target and has an
      importance of at least 0; a column whose numbers are all the same, or
      a target whose numbers are, scores 0. */
  lemma ScoredEntry(e: Importance, cols: seq<DataColumn>, target: string, tv: seq<real>)
    requires ScoredFrom(e, cols, target, tv)
    ensures e.feature != target && e.importance >= 0.0 && e.kind == "correlation"
    ensures exists i :: 0 <= i < |cols| && cols[i].name == e.feature && IsNumericColumn(cols[i])
    ensures Constant(tv) ==> e.importance == 0.0
  {
    var i :| 0 <= i < |cols| && Qualifies(cols[i], target, tv) && e == Entry(cols[i], tv);
    CorrelationGuards(Parsed(cols[i].values), tv);
  }
}
