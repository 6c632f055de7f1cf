/**
 * The evaluation script's `LabelBasedEvaluator`: the same majority vote of
 * the `k` most similar training phones as the application's evaluator, run
 * over the rows of the normalised frames. Results are kept in an
 * insertion-ordered dictionary keyed by scenario name, and exported without
 * the label lists.
 */
module LabelEvaluation {
  import opened Wrappers
  import opened Values
  import opened Numbers
  import opened WeightedEuclidean
  import Sorting
  import Evaluator
  import Preprocessing
  import Config

  // ---------------------------------------------------------------- the vote

  /** The neighbours of `predict_label`: one per row of the normalised training frame. */
  function Neighbours(w: Weights, sqrt: real -> real, query: map<string, real>, train: Frame, trainNorm: Frame)
    : Result<seq<Evaluator.Neighbour>>
    requires IsSqrt(sqrt)
  {
    Evaluator.Mapped(|trainNorm.rows|, Evaluator.NeighbourStep(w, sqrt, query, train, trainNorm))
  }

  /** `predict_label(query_features, train_df, train_normalized)`. */
  function PredictedLabel(w: Weights, sqrt: real -> real, k: int, query: map<string, real>, train: Frame, trainNorm: Frame)
    : Result<Value>
    requires IsSqrt(sqrt)
  {
    match Neighbours(w, sqrt, query, train, trainNorm)
    case Err(e) => Err(e)
    case Ok(ns) => Evaluator.Predicted(ns, k)
  }

  /** One iteration of the scoring loop: the normalised test row's features, the vote, then the phone's own label. */
  function ClassifiedAt(w: Weights, sqrt: real -> real, k: int, train: Frame, trainNorm: Frame, test: Frame, testNorm: Frame, i: nat)
    : (r: Result<(Value, Value)>)
    requires IsSqrt(sqrt)
    ensures r.Ok? ==>
      && Evaluator.LabelOf(test, i) == Ok(r.value.0)
      && Evaluator.IndexedFeatures(testNorm, i).Ok?
      && PredictedLabel(w, sqrt, k, Evaluator.IndexedFeatures(testNorm, i).value, train, trainNorm) == Ok(r.value.1)
  {
    match Evaluator.IndexedFeatures(testNorm, i)
    case Err(e) => Err(e)
    case Ok(q) =>
      match PredictedLabel(w, sqrt, k, q, train, trainNorm)
      case Err(e) => Err(e)
      case Ok(p) =>
        match Evaluator.LabelOf(test, i)
        case Err(e) => Err(e)
        case Ok(a) => Ok((a, p))
  }

  function ClassifyStep(w: Weights, sqrt: real -> real, k: int, train: Frame, trainNorm: Frame, test: Frame, testNorm: Frame)
    : nat -> Result<(Value, Value)>
    requires IsSqrt(sqrt)
  {
    (i: nat) => ClassifiedAt(w, sqrt, k, train, trainNorm, test, testNorm, i)
  }

  /** The `(actual, predicted)` pair of every normalised test row, in order. */
  function Classified(w: Weights, sqrt: real -> real, k: int, train: Frame, trainNorm: Frame, test: Frame, testNorm: Frame)
    : Result<seq<(Value, Value)>>
    requires IsSqrt(sqrt)
  {
    Evaluator.Mapped(|testNorm.rows|, ClassifyStep(w, sqrt, k, train, trainNorm, test, testNorm))
  }

  /** The actual labels of a classification are the test rows' own labels, in order. */
  lemma ClassifiedLabels(w: Weights, sqrt: real -> real, k: int, train: Frame, trainNorm: Frame, test: Frame, testNorm: Frame)
    requires IsSqrt(sqrt) && |trainNorm.rows| == |train.rows| && |testNorm.rows| == |test.rows|
    requires Classified(w, sqrt, k, train, trainNorm, test, testNorm).Ok?
    ensures var ps := Classified(w, sqrt, k, train, trainNorm, test, testNorm).value;
      && |Sorting.Firsts(ps)| == |Sorting.Seconds(ps)| == |test.rows|
      && forall i :: 0 <= i < |test.rows| ==> Evaluator.LabelOf(test, i) == Ok(Sorting.Firsts(ps)[i])
  {
    ClassifiedAgrees(w, sqrt, k, train, trainNorm, test, testNorm);
    Evaluator.ClassifiedLabels(w, sqrt, k, train, trainNorm, test, testNorm);
  }

  /**
   * When the normalised frames have a row per phone, as `transform` makes
   * them, the script labels every test phone as the application's
   * evaluator does.
   */
  lemma ClassifiedAgrees(w: Weights, sqrt: real -> real, k: int, train: Frame, trainNorm: Frame, test: Frame, testNorm: Frame)
    requires IsSqrt(sqrt) && |trainNorm.rows| == |train.rows| && |testNorm.rows| == |test.rows|
    ensures Classified(w, sqrt, k, train, trainNorm, test, testNorm)
         == Evaluator.Classified(w, sqrt, k, train, trainNorm, test, testNorm)
  {
    var step := ClassifyStep(w, sqrt, k, train, trainNorm, test, testNorm);
    var other := Evaluator.ClassifyStep(w, sqrt, k, train, trainNorm, test, testNorm);
    forall i | 0 <= i < |test.rows| ensures step(i) == other(i) {
      match Evaluator.IndexedFeatures(testNorm, i)
      case Err(_) =>
      case Ok(q) =>
        assert PredictedLabel(w, sqrt, k, q, train, trainNorm) == Evaluator.PredictedLabel(w, sqrt, k, q, train, trainNorm);
    }
    Evaluator.MappedCongruence(|test.rows|, step, other);
  }

  // ---------------------------------------------------------------- results

  /** `result['metrics']`: the four fractions as percentages to 2 places. */
  datatype Percentages = Percentages(accuracy: real, precision: real, recall: real, f1Score: real)

  function PercentagesOf(s: Evaluator.Scores): Percentages
  {
    Percentages(RoundTo(s.accuracy * 100.0, 2), RoundTo(s.precision * 100.0, 2),
                RoundTo(s.recall * 100.0, 2), RoundTo(s.f1 * 100.0, 2))
  }

  predicate InRange(m: Percentages)
  {
    0.0 <= m.accuracy <= 100.0 && 0.0 <= m.precision <= 100.0 && 0.0 <= m.recall <= 100.0 && 0.0 <= m.f1Score <= 100.0
  }

  /** The script reports the percentages the application's evaluator reports, so within [0, 100]. */
  lemma PercentagesSpec(yTrue: seq<Value>, yPred: seq<Value>)
    requires |yTrue| == |yPred| && |yTrue| > 0
    ensures var p := PercentagesOf(Evaluator.ScoresOf(yTrue, yPred));
      var m := Evaluator.MetricsOf(Evaluator.ScoresOf(yTrue, yPred));
      && [p.accuracy, p.precision, p.recall, p.f1Score] == Evaluator.Percentages(m)
      && InRange(p)
  {
    Evaluator.MetricsBounds(yTrue, yPred);
  }

  /** The dictionary `evaluate_scenario` builds, without its timestamp's clock. */
  datatype ScenarioResult = ScenarioResult(
    scenarioName: string, trainSize: nat, testSize: nat, kNeighbors: int, metrics: Percentages,
    confusionMatrix: seq<seq<nat>>, labels: seq<Value>, classificationReport: string,
    yTrue: seq<Value>, yPred: seq<Value>, timestamp: string)

  /** A value of the result dictionary. */
  datatype Field =
    | TextField(text: string)
    | CountField(count: int)
    | MetricsField(metrics: Percentages)
    | MatrixField(matrix: seq<seq<nat>>)
    | ListField(values: seq<Value>)

  /** The result as the dictionary it is, in key order. */
  function Entries(r: ScenarioResult): seq<(string, Field)>
  {
    [("scenario_name", TextField(r.scenarioName)), ("train_size", CountField(r.trainSize)),
     ("test_size", CountField(r.testSize)), ("k_neighbors", CountField(r.kNeighbors)),
     ("metrics", MetricsField(r.metrics)), ("confusion_matrix", MatrixField(r.confusionMatrix)),
     ("labels", ListField(r.labels)), ("classification_report", TextField(r.classificationReport)),
     ("y_true", ListField(r.yTrue)), ("y_pred", ListField(r.yPred)), ("timestamp", TextField(r.timestamp))]
  }

  /** The keys `save_results_json` leaves out. */
  const DROPPED: seq<string> := ["y_true", "y_pred"]

  function Kept(drop: seq<string>): ((string, Field)) -> bool
  {
    (e: (string, Field)) => e.0 !in drop
  }

  /** `{k: v for k, v in result.items() if k not in ['y_true', 'y_pred']}`. */
  function Exported(r: ScenarioResult): seq<(string, Field)>
  {
    Sorting.Filter(Entries(r), Kept(DROPPED))
  }

  /** The export is the result without exactly its two label lists, the other entries unchanged and in order. */
  lemma ExportedSpec(r: ScenarioResult)
    ensures Exported(r) == Entries(r)[..8] + Entries(r)[10..]
  {
    var e := Entries(r);
    var p := Kept(DROPPED);
    forall i | 0 <= i < |e| ensures p(e[i]) <==> !(8 <= i < 10) {
      if i == 0 {} else if i == 1 {} else if i == 2 {} else if i == 3 {} else if i == 4 {} else if i == 5 {}
      else if i == 6 {} else if i == 7 {} else if i == 8 {} else if i == 9 {} else {}
    }
    Sorting.FilterDropsSlice(e, 8, 10, p);
  }

  // ---------------------------------------------------------------- the results dictionary

  /** No key occurs twice. */
  predicate UniqueKeys<V>(d: seq<(string, V)>)
  {
    forall i, j :: 0 <= i < j < |d| ==> d[i].0 != d[j].0
  }

  /** `d[key] = v` on an insertion-ordered dictionary: a present key keeps its place, a new one goes last. */
  function Assigned<V>(d: seq<(string, V)>, key: string, v: V): seq<(string, V)>
  {
    if d == [] then [(key, v)]
    else if d[0].0 == key then [(key, v)] + d[1..]
    else [d[0]] + Assigned(d[1..], key, v)
  }

  /** A new key is appended. */
  lemma {:induction false} AssignedAbsent<V>(d: seq<(string, V)>, key: string, v: V)
    requires forall i :: 0 <= i < |d| ==> d[i].0 != key
    ensures Assigned(d, key, v) == d + [(key, v)]
  {
    if d != [] {
      assert d[0].0 != key;
      forall i | 0 <= i < |d| - 1 ensures d[1..][i].0 != key {
        assert d[1..][i] == d[i + 1];
      }
      AssignedAbsent(d[1..], key, v);
      assert d == [d[0]] + d[1..];
    }
  }

  /** A present key keeps its position, `j` being its first. */
  lemma {:induction false} AssignedPresent<V>(d: seq<(string, V)>, key: string, v: V, j: nat)
    requires j < |d| && d[j].0 == key && forall i :: 0 <= i < j ==> d[i].0 != key
    ensures Assigned(d, key, v) == d[j := (key, v)]
  {
    if j > 0 {
      assert d[0].0 != key;
      forall i | 0 <= i < j - 1 ensures d[1..][i].0 != key {
        assert d[1..][i] == d[i + 1];
      }
      AssignedPresent(d[1..], key, v, j - 1);
      assert d[j := (key, v)] == [d[0]] + d[1..][j - 1 := (key, v)];
    }
  }

  /** In a dictionary without repeated keys, a key's entry is the one lookup finds. */
  lemma LookupUnique<V>(d: seq<(string, V)>, i: nat)
    requires UniqueKeys(d) && i < |d|
    ensures Preprocessing.Lookup(d, d[i].0) == Some(d[i].1)
  {
    var r := Preprocessing.Lookup(d, d[i].0);
    assert r.Some?;
    var j :| 0 <= j < |d| && d[j] == (d[i].0, r.value);
    assert d[j].0 == d[i].0;
  }

  /** Replacing a value in place keeps the keys and what the other keys map to. */
  lemma ReplacedLookup<V>(d: seq<(string, V)>, key: string, v: V, j: nat)
    requires UniqueKeys(d) && j < |d| && d[j].0 == key
    ensures var a := d[j := (key, v)];
      && UniqueKeys(a)
      && Preprocessing.Lookup(a, key) == Some(v)
      && (forall other :: other != key ==> Preprocessing.Lookup(a, other) == Preprocessing.Lookup(d, other))
  {
    var a := d[j := (key, v)];
    assert forall i :: 0 <= i < |d| ==> a[i].0 == d[i].0;
    LookupUnique(a, j);
    forall other | other != key ensures Preprocessing.Lookup(a, other) == Preprocessing.Lookup(d, other) {
      if i :| 0 <= i < |d| && d[i].0 == other {
        assert a[i] == d[i];
        LookupUnique(a, i);
        LookupUnique(d, i);
      }
    }
  }

  /** Appending a new key keeps the keys unrepeated and what the old keys map to. */
  lemma AppendedLookup<V>(d: seq<(string, V)>, key: string, v: V)
    requires UniqueKeys(d) && forall i :: 0 <= i < |d| ==> d[i].0 != key
    ensures var a := d + [(key, v)];
      && UniqueKeys(a)
      && Preprocessing.Lookup(a, key) == Some(v)
      && (forall other :: other != key ==> Preprocessing.Lookup(a, other) == Preprocessing.Lookup(d, other))
  {
    var a := d + [(key, v)];
    assert forall i :: 0 <= i < |d| ==> a[i] == d[i];
    assert UniqueKeys(a) by {
      forall i, j | 0 <= i < j < |a| ensures a[i].0 != a[j].0 {
        if j < |d| {
          assert a[i].0 == d[i].0 && a[j].0 == d[j].0;
        }
      }
    }
    LookupUnique(a, |d|);
    forall other | other != key ensures Preprocessing.Lookup(a, other) == Preprocessing.Lookup(d, other) {
      AppendedOther(d, key, v, other);
    }
  }

  lemma AppendedOther<V>(d: seq<(string, V)>, key: string, v: V, other: string)
    requires other != key && UniqueKeys(d) && UniqueKeys(d + [(key, v)])
    ensures Preprocessing.Lookup(d + [(key, v)], other) == Preprocessing.Lookup(d, other)
  {
    var a := d + [(key, v)];
    if i :| 0 <= i < |d| && d[i].0 == other {
      assert a[i] == d[i];
      LookupUnique(a, i);
      LookupUnique(d, i);
    } else {
      assert forall i :: 0 <= i < |a| ==> a[i].0 != other by {
        forall i | 0 <= i < |a| ensures a[i].0 != other {
          if i < |d| { assert a[i] == d[i]; }
        }
      }
    }
  }

  /**
   * Assigning keeps the keys unrepeated; afterwards the key maps to `v`
   * and every other key to what it did.
   */
  lemma AssignedSpec<V>(d: seq<(string, V)>, key: string, v: V)
    requires UniqueKeys(d)
    ensures var a := Assigned(d, key, v);
      && UniqueKeys(a)
      && Preprocessing.Lookup(a, key) == Some(v)
      && (forall other :: other != key ==> Preprocessing.Lookup(a, other) == Preprocessing.Lookup(d, other))
  {
    if j :| 0 <= j < |d| && d[j].0 == key {
      forall i | 0 <= i < j ensures d[i].0 != key {
        assert d[i].0 != d[j].0;
      }
      AssignedPresent(d, key, v, j);
      ReplacedLookup(d, key, v, j);
    } else {
      AssignedAbsent(d, key, v);
      AppendedLookup(d, key, v);
    }
  }

  /** A loop `d[key] = f(value)` over a dictionary `rs`, into a dictionary that starts empty. */
  function AssignedAll<V, W>(rs: seq<(string, V)>, f: V -> W): seq<(string, W)>
  {
    if rs == [] then []
    else Assigned(AssignedAll(rs[..|rs| - 1], f), rs[|rs| - 1].0, f(rs[|rs| - 1].1))
  }

  /** Over keys that do not repeat, the loop keeps every key in place and maps its value through `f`. */
  lemma {:induction false} AssignedAllSpec<V, W>(rs: seq<(string, V)>, f: V -> W)
    requires UniqueKeys(rs)
    ensures |AssignedAll(rs, f)| == |rs|
    ensures forall i :: 0 <= i < |rs| ==> AssignedAll(rs, f)[i] == (rs[i].0, f(rs[i].1))
  {
    if rs != [] {
      var n := |rs| - 1;
      var init := rs[..n];
      assert UniqueKeys(init) by {
        forall i, j | 0 <= i < j < n ensures init[i].0 != init[j].0 {
          assert init[i] == rs[i] && init[j] == rs[j];
        }
      }
      AssignedAllSpec(init, f);
      var e := AssignedAll(init, f);
      forall i | 0 <= i < n ensures e[i].0 != rs[n].0 {
        assert init[i] == rs[i];
      }
      AssignedAbsent(e, rs[n].0, f(rs[n].1));
      forall i | 0 <= i < n ensures AssignedAll(rs, f)[i] == (rs[i].0, f(rs[i].1)) {
        assert init[i] == rs[i];
      }
    }
  }

  // ---------------------------------------------------------------- the best scenario

  function F1Of(e: (string, ScenarioResult)): real { e.1.metrics.f1Score }

  function ByF1(): ((string, ScenarioResult)) -> real { (e: (string, ScenarioResult)) => F1Of(e) }

  /** `max(self.results.items(), key=...f1_score)`: the first entry of highest F1; none is an error. */
  function BestScenario(rs: seq<(string, ScenarioResult)>): Result<(string, ScenarioResult)>
  {
    if rs == [] then Err("max() arg is an empty sequence") else Ok(rs[Evaluator.FirstMaximal(rs, ByF1(), |rs|)])
  }

  /** The best scenario is an entry no other entry beats on F1, the first such. */
  lemma BestScenarioSpec(rs: seq<(string, ScenarioResult)>)
    ensures BestScenario(rs).Err? <==> rs == []
    ensures BestScenario(rs).Ok? ==>
      && BestScenario(rs).value in rs
      && (forall i :: 0 <= i < |rs| ==> rs[i].1.metrics.f1Score <= BestScenario(rs).value.1.metrics.f1Score)
      && (forall i :: 0 <= i < |rs| && rs[i].1.metrics.f1Score == BestScenario(rs).value.1.metrics.f1Score ==>
            exists j :: 0 <= j <= i && rs[j] == BestScenario(rs).value)
  {
    if rs != [] {
      var b := Evaluator.FirstMaximal(rs, ByF1(), |rs|);
      Evaluator.FirstMaximalSpec(rs, ByF1(), |rs|);
      forall i | 0 <= i < |rs| ensures rs[i].1.metrics.f1Score <= rs[b].1.metrics.f1Score {
        assert ByF1()(rs[i]) <= ByF1()(rs[b]);
      }
      forall i | 0 <= i < |rs| && rs[i].1.metrics.f1Score == rs[b].1.metrics.f1Score
        ensures exists j :: 0 <= j <= i && rs[j] == rs[b]
      {
        assert ByF1()(rs[i]) == ByF1()(rs[b]);
        assert b <= i;
      }
    }
  }

  // ---------------------------------------------------------------- the evaluator

  class LabelBasedEvaluator {
    const weights: Weights
    const k: int
    const preprocessor: Preprocessing.Preprocessor
    /** Built from `weights`. */
    const calculator: Calculator
    /** `self.results`: scenario name to result, in insertion order. */
    var results: seq<(string, ScenarioResult)>

    ghost predicate Valid()
      reads this, preprocessor, calculator
    {
      preprocessor.Valid() && calculator.Valid() && UniqueKeys(results)
    }

    constructor Init(w: Weights, k: int, p: Preprocessing.Preprocessor, c: Calculator)
      requires p.Valid() && c.Valid()
      ensures Valid() && weights == w && this.k == k && preprocessor == p && calculator == c && results == []
    {
      weights, this.k := w, k;
      preprocessor, calculator := p, c;
      results := [];
    }

    /**
     * `LabelBasedEvaluator(weights, k)`: no weights select the configured
     * defaults. The calculator sanitises the very dictionary the evaluator
     * keeps, so the evaluator's weights are the sanitised ones too.
     */
    static method Create(w: Weights, k: int, sqrt: real -> real) returns (r: Result<LabelBasedEvaluator>)
      requires IsSqrt(sqrt) && DistinctKeys(w)
      ensures var chosen := if w == [] then Config.DEFAULT_WEIGHTS else w;
        && (r.Ok? <==> Normalized(Sanitized(chosen)).Ok?)
        && (r.Ok? ==>
              && fresh(r.value) && r.value.Valid() && r.value.weights == Sanitized(chosen) && r.value.k == k
              && r.value.results == [] && !r.value.preprocessor.isFitted
              && r.value.calculator.weights == Sanitized(chosen) && r.value.calculator.Consistent())
    {
      var chosen := if w == [] then Config.DEFAULT_WEIGHTS else w;
      Config.DefaultWeightsWellFormed();
      var p := new Preprocessing.Preprocessor();
      var c := Calculator.Create(chosen, sqrt);
      if c.Err? {
        return Err(c.error);
      }
      var e := new LabelBasedEvaluator.Init(c.value.weights, k, p, c.value);
      r := Ok(e);
    }

    /** The preprocessor's numeric ranges are those of the training set `df`. */
    ghost predicate FittedOn(df: Frame)
      reads preprocessor
    {
      forall c :: c in Preprocessing.NUMERIC_COLUMNS && c in Preprocessing.PreparedColumns(df.columns) ==>
        && c in preprocessor.minValues && c in preprocessor.maxValues
        && preprocessor.minValues[c] == Preprocessing.ColumnMin(Preprocessing.PreparedColumn(df, c))
        && preprocessor.maxValues[c] == Preprocessing.ColumnMax(Preprocessing.PreparedColumn(df, c))
    }

    /** Every normalised test row can be classified against the training set, on the frames `transform` makes. */
    ghost predicate Classifies(train: Frame, test: Frame)
      requires Valid()
      reads this, preprocessor, calculator
    {
      exists trainNorm: Frame, testNorm: Frame ::
        && preprocessor.IsTransformOf(train, trainNorm) && preprocessor.IsTransformOf(test, testNorm)
        && Classified(calculator.normalizedWeights, calculator.sqrt, k, train, trainNorm, test, testNorm).Ok?
    }

    /**
     * `load_and_prepare_data`: `files` is what reading the two files gives.
     * Fits the preprocessor on the training frame and normalises both.
     */
    method LoadAndPrepareData(files: Result<(Frame, Frame)>) returns (r: Result<(Frame, Frame, Frame, Frame)>)
      requires Valid()
      modifies preprocessor
      ensures Valid()
      ensures r.Err? <==> files.Err?
      ensures r.Ok? ==>
        && preprocessor.isFitted
        && r.value.0 == files.value.0 && r.value.1 == files.value.1
        && FittedOn(r.value.0)
        && preprocessor.IsTransformOf(r.value.0, r.value.2) && preprocessor.IsTransformOf(r.value.1, r.value.3)
      ensures r.Ok? ==> var cols := Preprocessing.PreparedColumns(files.value.0.columns);
        && (forall c :: c in preprocessor.minValues <==> c in old(preprocessor.minValues) || (c in Preprocessing.NUMERIC_COLUMNS && c in cols))
        && (forall c :: c in old(preprocessor.minValues) && !(c in Preprocessing.NUMERIC_COLUMNS && c in cols) ==>
              preprocessor.minValues[c] == old(preprocessor.minValues[c]) && preprocessor.maxValues[c] == old(preprocessor.maxValues[c]))
        && preprocessor.brandEncoding == (if "Brand" in cols then Preprocessing.Encoding(Preprocessing.PreparedColumn(files.value.0, "Brand")) else old(preprocessor.brandEncoding))
        && preprocessor.osEncoding == (if "Os" in cols then Preprocessing.Encoding(Preprocessing.PreparedColumn(files.value.0, "Os")) else old(preprocessor.osEncoding))
    {
      if files.Err? {
        return Err(files.error);
      }
      var (train, test) := files.value;
      preprocessor.Fit(train);
      var trainNorm := preprocessor.Transform(train);
      var testNorm := preprocessor.Transform(test);
      r := Ok((train, test, trainNorm.value, testNorm.value));
    }

    /**
     * `extract_features(row)`: the row's features, one entry of the feature
     * map at a time; `columns` is the row's index.
     */
    method ExtractFeatures(columns: seq<string>, row: Row) returns (r: Result<map<string, real>>)
      ensures r == Evaluator.RowFeatures(columns, row)
    {
      var features: map<string, real> := map[];
      for n := 0 to |Evaluator.FEATURE_MAP|
        invariant Evaluator.Features(Evaluator.FEATURE_MAP[..n], columns, row) == Ok(features)
      {
        var entry := Evaluator.FEATURE_MAP[n];
        Evaluator.FeaturesExtend(Evaluator.FEATURE_MAP, columns, row, n, features);
        var source := Evaluator.FeatureSource(columns, entry);
        if source.Some? {
          var x := Evaluator.FeatureCell(Get(row, source.value, NaN));
          if x.Err? {
            Evaluator.FeaturesFailurePersists(Evaluator.FEATURE_MAP, columns, row, n + 1);
            return Err(x.error);
          }
          features := features[entry.0 := x.value];
        }
      }
      assert Evaluator.FEATURE_MAP[..|Evaluator.FEATURE_MAP|] == Evaluator.FEATURE_MAP;
      r := Ok(features);
    }

    /**
     * One iteration of the `predict_label` loop: the normalised training row
     * at position `idx` scored against the query (the loop only visits
     * positions that exist).
     */
    method ScoreRow(query: map<string, real>, train: Frame, trainNorm: Frame, idx: nat) returns (r: Result<Evaluator.Neighbour>)
      requires calculator.Valid()
      ensures r == Evaluator.NeighbourAt(calculator.normalizedWeights, calculator.sqrt, query, train, trainNorm, idx)
    {
      var row := Evaluator.NormRow(trainNorm, idx);
      if row.Err? {
        return Err(row.error);
      }
      var features := ExtractFeatures(trainNorm.columns, row.value);
      if features.Err? {
        return Err(features.error);
      }
      var similarity := calculator.SimilarityOf(query, features.value);
      var known := Evaluator.LabelOf(train, idx);
      if known.Err? {
        return Err(known.error);
      }
      r := Ok(Evaluator.Neighbour(idx, similarity, known.value));
    }

    /**
     * `predict_label`: every normalised training row scored against the
     * query, sorted by similarity, and the vote of the first `k`.
     */
    method PredictLabel(query: map<string, real>, train: Frame, trainNorm: Frame) returns (r: Result<Value>)
      requires calculator.Valid()
      ensures r == PredictedLabel(calculator.normalizedWeights, calculator.sqrt, k, query, train, trainNorm)
    {
      var similarities := ScoreRows(query, train, trainNorm);
      if similarities.Err? {
        return Err(similarities.error);
      }
      var topK := Sorting.Take(Sorting.Sort(similarities.value, Evaluator.Closer), k);
      r := Evaluator.Vote(Evaluator.Labels(topK));
    }

    /** The scoring loop of `predict_label`: one neighbour per normalised training row, stopping at the first failure. */
    method ScoreRows(query: map<string, real>, train: Frame, trainNorm: Frame) returns (r: Result<seq<Evaluator.Neighbour>>)
      requires calculator.Valid()
      ensures r == Neighbours(calculator.normalizedWeights, calculator.sqrt, query, train, trainNorm)
    {
      var w, sqrt := calculator.normalizedWeights, calculator.sqrt;
      ghost var step := Evaluator.NeighbourStep(w, sqrt, query, train, trainNorm);
      var similarities: seq<Evaluator.Neighbour> := [];
      for idx := 0 to |trainNorm.rows|
        invariant Evaluator.Mapped(idx, step) == Ok(similarities)
      {
        var next := ScoreRow(query, train, trainNorm, idx);
        assert step(idx) == next;
        Evaluator.MappedStep(idx, step, similarities);
        if next.Err? {
          Evaluator.MappedFailurePersists(idx + 1, |trainNorm.rows|, step);
          return Err(next.error);
        }
        similarities := similarities + [next.value];
      }
      r := Ok(similarities);
    }

    /** One pass of the loop of `evaluate_scenario`: the actual and the predicted label of test row `idx`. */
    method ClassifyRow(train: Frame, test: Frame, trainNorm: Frame, testNorm: Frame, idx: nat) returns (next: Result<(Value, Value)>)
      requires calculator.Valid() && idx < |testNorm.rows|
      ensures next == ClassifiedAt(calculator.normalizedWeights, calculator.sqrt, k, train, trainNorm, test, testNorm, idx)
    {
      var query := ExtractFeatures(testNorm.columns, testNorm.rows[idx]);
      if query.Err? {
        next := Err(query.error);
      } else {
        var predicted := PredictLabel(query.value, train, trainNorm);
        if predicted.Err? {
          next := Err(predicted.error);
        } else {
          var actual := Evaluator.LabelOf(test, idx);
          next := if actual.Err? then Err(actual.error) else Ok((actual.value, predicted.value));
        }
      }
    }

    /** The loop of `evaluate_scenario`: `y_true` and `y_pred`, one entry per normalised test row. */
    method Classify(train: Frame, test: Frame, trainNorm: Frame, testNorm: Frame) returns (r: Result<(seq<Value>, seq<Value>)>)
      requires calculator.Valid()
      ensures var c := Classified(calculator.normalizedWeights, calculator.sqrt, k, train, trainNorm, test, testNorm);
        && (r.Err? <==> c.Err?) && (r.Err? ==> r.error == c.error)
        && (r.Ok? ==> r.value == (Sorting.Firsts(c.value), Sorting.Seconds(c.value)))
    {
      var w, sqrt := calculator.normalizedWeights, calculator.sqrt;
      ghost var step := ClassifyStep(w, sqrt, k, train, trainNorm, test, testNorm);
      ghost var pairs: seq<(Value, Value)> := [];
      var yTrue: seq<Value> := [];
      var yPred: seq<Value> := [];
      for idx := 0 to |testNorm.rows|
        invariant Evaluator.Mapped(idx, step) == Ok(pairs)
        invariant yTrue == Sorting.Firsts(pairs) && yPred == Sorting.Seconds(pairs)
      {
        var next := ClassifyRow(train, test, trainNorm, testNorm, idx);
        assert step(idx) == next;
        Evaluator.MappedStep(idx, step, pairs);
        if next.Err? {
          Evaluator.MappedFailurePersists(idx + 1, |testNorm.rows|, step);
          return Err(next.error);
        }
        var y := next.value;
        Evaluator.PairsAppend(pairs, y);
        pairs := pairs + [y];
        yTrue := yTrue + [y.0];
        yPred := yPred + [y.1];
      }
      r := Ok((yTrue, yPred));
    }

    /**
     * `evaluate_scenario`: prepares the scenario's frames, labels every
     * test phone, scores the labels and stores the result under the
     * scenario's name. `report` stands for sklearn's classification report
     * and `timestamp` for the clock. An empty test set cannot be scored.
     */
    method EvaluateScenario(files: Result<(Frame, Frame)>, scenarioName: string,
                            report: (seq<Value>, seq<Value>) -> string, timestamp: string)
      returns (r: Result<ScenarioResult>)
      requires Valid()
      modifies this, preprocessor
      ensures Valid()
      ensures files.Err? ==> r.Err?
      ensures r.Err? ==> results == old(results)
      ensures files.Ok? && |files.value.1.rows| > 0 && Classifies(files.value.0, files.value.1) ==> r.Ok?
      ensures r.Ok? ==>
        && files.Ok? && preprocessor.isFitted
        && results == Assigned(old(results), scenarioName, r.value)
        && r.value.scenarioName == scenarioName && r.value.kNeighbors == k
        && r.value.trainSize == |files.value.0.rows| && r.value.testSize == |files.value.1.rows|
        && |r.value.yTrue| == |r.value.yPred| == |files.value.1.rows| > 0
        && (forall i :: 0 <= i < |r.value.yTrue| ==> Evaluator.LabelOf(files.value.1, i) == Ok(r.value.yTrue[i]))
        && FittedOn(files.value.0)
        && (exists trainNorm: Frame, testNorm: Frame, ps: seq<(Value, Value)> ::
              && preprocessor.IsTransformOf(files.value.0, trainNorm) && preprocessor.IsTransformOf(files.value.1, testNorm)
              && Classified(calculator.normalizedWeights, calculator.sqrt, k, files.value.0, trainNorm, files.value.1, testNorm) == Ok(ps)
              && r.value.yTrue == Sorting.Firsts(ps) && r.value.yPred == Sorting.Seconds(ps))
        && r.value.metrics == PercentagesOf(Evaluator.ScoresOf(r.value.yTrue, r.value.yPred))
        && InRange(r.value.metrics)
        && r.value.confusionMatrix == Evaluator.ConfusionMatrix(r.value.yTrue, r.value.yPred)
        && r.value.labels == Evaluator.LABELS
        && r.value.classificationReport == report(r.value.yTrue, r.value.yPred)
        && r.value.timestamp == timestamp
    {
      var frames := LoadAndPrepareData(files);
      if frames.Err? {
        return Err(frames.error);
      }
      var (train, test, trainNorm, testNorm) := frames.value;
      var ys := Classify(train, test, trainNorm, testNorm);
      if ys.Err? {
        forall tn: Frame, sn: Frame | preprocessor.IsTransformOf(train, tn) && preprocessor.IsTransformOf(test, sn)
          ensures Classified(calculator.normalizedWeights, calculator.sqrt, k, train, tn, test, sn).Err?
        {
          var w, sqrt := calculator.normalizedWeights, calculator.sqrt;
          preprocessor.TransformsAgree(train, trainNorm, tn);
          preprocessor.TransformsAgree(test, testNorm, sn);
          ClassifiedAgrees(w, sqrt, k, train, trainNorm, test, testNorm);
          ClassifiedAgrees(w, sqrt, k, train, tn, test, sn);
          Evaluator.ClassifiedOfSameCells(w, sqrt, k, train, trainNorm, tn, test, testNorm, sn);
        }
        assert !Classifies(train, test);
        return Err(ys.error);
      }
      var (yTrue, yPred) := ys.value;
      ClassifiedLabels(calculator.normalizedWeights, calculator.sqrt, k, train, trainNorm, test, testNorm);
      if |yTrue| == 0 {
        return Err("no test samples to score");
      }
      ghost var ps := Classified(calculator.normalizedWeights, calculator.sqrt, k, train, trainNorm, test, testNorm).value;
      PercentagesSpec(yTrue, yPred);
      var result := ScenarioResult(scenarioName, |train.rows|, |test.rows|, k,
                                   PercentagesOf(Evaluator.ScoresOf(yTrue, yPred)),
                                   Evaluator.ConfusionMatrix(yTrue, yPred), Evaluator.LABELS,
                                   report(yTrue, yPred), yTrue, yPred, timestamp);
      AssignedSpec(results, scenarioName, result);
      results := Assigned(results, scenarioName, result);
      r := Ok(result);
    }

    /** `save_metrics_report`: the scenario it names best; the report text is not modelled. */
    method SaveMetricsReport() returns (best: Result<string>)
      requires Valid()
      ensures best.Err? <==> results == []
      ensures best.Ok? ==> best.value == BestScenario(results).value.0
    {
      var b := BestScenario(results);
      if b.Err? {
        return Err(b.error);
      }
      best := Ok(b.value.0);
    }

    /** `save_results_json`: what is written, every scenario's result without its label lists. */
    method SaveResultsJson() returns (exported: seq<(string, seq<(string, Field)>)>)
      requires Valid()
      ensures |exported| == |results|
      ensures forall i :: 0 <= i < |results| ==> exported[i] == (results[i].0, Exported(results[i].1))
    {
      exported := [];
      for i := 0 to |results|
        invariant exported == AssignedAll(results[..i], Exported)
      {
        assert results[..i + 1][..i] == results[..i];
        exported := Assigned(exported, results[i].0, Exported(results[i].1));
      }
      assert results[..|results|] == results;
      AssignedAllSpec(results, Exported);
    }
  }
}
