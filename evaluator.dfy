/**
 * Label-based evaluation of the recommender: every test phone is labelled
 * by a majority vote of the labels of its `k` most similar training phones,
 * and the predictions are scored against the phones' own labels.
 *
 * The scores sklearn computes are defined here from the confusion matrix
 * over the three labels: accuracy, and precision, recall and F1 per label
 * averaged with the labels' support as weights.
 */
module Evaluator {
  import opened Wrappers
  import opened Sorting
  import opened Numbers
  import opened Text
  import opened Values
  import opened WeightedEuclidean
  import Preprocessing
  import Config

  /** The labels of the confusion matrix and of the averaged scores, in their fixed order. */
  const LABELS: seq<Value> := [GAMING, PHOTOGRAPHER, DAILY]

  const GAMING: Value := Str("Gaming")
  const PHOTOGRAPHER: Value := Str("Photographer")
  const DAILY: Value := Str("Daily")

  const KEY_ERROR: string := "KeyError"

  // ---------------------------------------------------------------- features

  /** `feature_map`: each weight key with the normalised column it is read from. */
  const FEATURE_MAP: seq<(string, string)> :=
    [("Harga", "Harga_norm"), ("Ram", "Ram_norm"), ("Memori_internal", "Memori_internal_norm"),
     ("Kapasitas_baterai", "Kapasitas_baterai_norm"), ("Ukuran_layar", "Ukuran_layar_norm"),
     ("Rating_pengguna", "Rating_pengguna_norm"), ("Resolusi_kamera_num", "Resolusi_kamera_num_norm")]

  /** `float(val) if pd.notna(val) else 0.0`: a missing cell reads 0, a text cell cannot be converted. */
  function FeatureCell(v: Value): (r: Result<real>)
    ensures IsMissing(v) ==> r == Ok(0.0)
    ensures IsFinite(v) ==> r == Ok(AsReal(v))
    ensures r.Err? <==> v.Str? || v.Strs?
  {
    match v
    case Num(x) => Ok(x)
    case Bool(b) => Ok(if b then 1.0 else 0.0)
    case Null => Ok(0.0)
    case NaN => Ok(0.0)
    case Str(_) => Err("could not convert string to float")
    case Strs(_) => Err("float() argument must be a string or a real number")
  }

  /** The column an entry of the feature map is read from: its `_norm` column, else the key without `_num`. */
  function FeatureSource(columns: seq<string>, entry: (string, string)): Option<string>
  {
    if entry.1 in columns then Some(entry.1)
    else if ReplaceAll(entry.0, "_num", "") in columns then Some(ReplaceAll(entry.0, "_num", ""))
    else None
  }

  /** The features of one row of a frame with `columns`, for the entries `table`, in order. */
  function Features(table: seq<(string, string)>, columns: seq<string>, row: Row): Result<map<string, real>>
  {
    if table == [] then Ok(map[])
    else
      match Features(table[..|table| - 1], columns, row)
      case Err(e) => Err(e)
      case Ok(f) =>
        var entry := table[|table| - 1];
        match FeatureSource(columns, entry)
        case None => Ok(f)
        case Some(c) =>
          match FeatureCell(Get(row, c, NaN))
          case Err(e) => Err(e)
          case Ok(x) => Ok(f[entry.0 := x])
  }

  /** `extract_features` on one row: every weight key whose column (or fallback) the frame has. */
  function RowFeatures(columns: seq<string>, row: Row): Result<map<string, real>>
  {
    Features(FEATURE_MAP, columns, row)
  }

  /** The loop over the feature map stops at the first cell that does not convert. */
  lemma {:induction false} FeaturesFailurePersists(table: seq<(string, string)>, columns: seq<string>, row: Row, n: nat)
    requires n <= |table| && Features(table[..n], columns, row).Err?
    ensures Features(table, columns, row) == Features(table[..n], columns, row)
    decreases |table| - n
  {
    if n < |table| {
      assert table[..n + 1][..n] == table[..n];
      FeaturesFailurePersists(table, columns, row, n + 1);
    } else {
      assert table[..n] == table;
    }
  }

  /** One more entry of the feature map: skipped without a column, otherwise its converted cell (or the failure). */
  lemma FeaturesExtend(table: seq<(string, string)>, columns: seq<string>, row: Row, n: nat, f: map<string, real>)
    requires n < |table| && Features(table[..n], columns, row) == Ok(f)
    ensures FeatureSource(columns, table[n]).None? ==> Features(table[..n + 1], columns, row) == Ok(f)
    ensures FeatureSource(columns, table[n]).Some? ==>
      var x := FeatureCell(Get(row, FeatureSource(columns, table[n]).value, NaN));
      Features(table[..n + 1], columns, row) == if x.Err? then Err(x.error) else Ok(f[table[n].0 := x.value])
  {
    assert table[..n + 1][..n] == table[..n];
    assert table[..n + 1][n] == table[n];
  }

  /** The entry has a column to read in a frame with `columns`. */
  predicate Reads(columns: seq<string>, entry: (string, string))
  {
    FeatureSource(columns, entry).Some?
  }

  /** What the entry reads from `row`, converted. */
  function ReadCell(columns: seq<string>, row: Row, entry: (string, string)): Result<real>
    requires Reads(columns, entry)
  {
    FeatureCell(Get(row, FeatureSource(columns, entry).value, NaN))
  }

  /** The entry reads nothing, or a cell that converts. */
  predicate Converts(columns: seq<string>, row: Row, entry: (string, string))
  {
    Reads(columns, entry) ==> ReadCell(columns, row, entry).Ok?
  }

  /** Extraction fails exactly when a column it reads holds text. */
  lemma {:induction false} FeaturesFail(table: seq<(string, string)>, columns: seq<string>, row: Row)
    ensures Features(table, columns, row).Ok? <==> forall i :: 0 <= i < |table| ==> Converts(columns, row, table[i])
  {
    if table != [] {
      var n := |table| - 1;
      FeaturesFail(table[..n], columns, row);
      assert forall i :: 0 <= i < n ==> table[..n][i] == table[i];
    }
  }

  /** There is a feature for exactly the keys whose column (or its fallback) the frame has. */
  lemma {:induction false} FeaturesKeys(table: seq<(string, string)>, columns: seq<string>, row: Row)
    requires Features(table, columns, row).Ok?
    ensures forall key :: key in Features(table, columns, row).value <==>
      exists i :: 0 <= i < |table| && table[i].0 == key && Reads(columns, table[i])
  {
    if table != [] {
      var n := |table| - 1;
      var init := table[..n];
      FeaturesKeys(init, columns, row);
      var f := Features(table, columns, row).value;
      var g := Features(init, columns, row).value;
      assert f.Keys == if Reads(columns, table[n]) then g.Keys + {table[n].0} else g.Keys;
      forall key ensures key in f <==> exists i :: 0 <= i < |table| && table[i].0 == key && Reads(columns, table[i]) {
        if key in g {
          var i :| 0 <= i < n && init[i].0 == key && Reads(columns, init[i]);
          assert table[i] == init[i];
        }
        if i :| 0 <= i < n && table[i].0 == key && Reads(columns, table[i]) {
          assert init[i] == table[i];
        }
      }
    }
  }

  /** Each feature is the converted cell it reads, a missing cell reading 0. */
  lemma {:induction false} FeaturesValues(table: seq<(string, string)>, columns: seq<string>, row: Row)
    requires forall i, j :: 0 <= i < j < |table| ==> table[i].0 != table[j].0
    requires Features(table, columns, row).Ok?
    ensures forall i :: 0 <= i < |table| && Reads(columns, table[i]) ==>
      table[i].0 in Features(table, columns, row).value &&
      Ok(Features(table, columns, row).value[table[i].0]) == ReadCell(columns, row, table[i])
  {
    if table != [] {
      var n := |table| - 1;
      var init := table[..n];
      FeaturesValues(init, columns, row);
      var f := Features(table, columns, row).value;
      var g := Features(init, columns, row).value;
      forall i | 0 <= i < |table| && Reads(columns, table[i])
        ensures table[i].0 in f && Ok(f[table[i].0]) == ReadCell(columns, row, table[i])
      {
        if i < n {
          assert init[i] == table[i];
          assert table[i].0 != table[n].0;
        }
      }
    }
  }

  /** `normalized_df.loc[idx] if idx in normalized_df.index else normalized_df.iloc[0]`, on a range index. */
  function NormRow(norm: Frame, idx: int): (r: Result<Row>)
    ensures r.Err? <==> norm.rows == []
    ensures 0 <= idx < |norm.rows| ==> r == Ok(norm.rows[idx])
    ensures r.Ok? && !(0 <= idx < |norm.rows|) ==> r.value == norm.rows[0]
  {
    if 0 <= idx < |norm.rows| then Ok(norm.rows[idx])
    else if norm.rows == [] then Err("single positional indexer is out-of-bounds")
    else Ok(norm.rows[0])
  }

  /** `ModelEvaluator.extract_features(row, normalized_df, idx)`: the row itself is not read. */
  function IndexedFeatures(norm: Frame, idx: int): Result<map<string, real>>
  {
    match NormRow(norm, idx)
    case Err(e) => Err(e)
    case Ok(row) => RowFeatures(norm.columns, row)
  }

  /** `df.loc[idx, 'Label']` on a range index. */
  function LabelOf(df: Frame, idx: int): (r: Result<Value>)
    ensures r.Ok? <==> "Label" in df.columns && 0 <= idx < |df.rows|
  {
    if "Label" in df.columns && 0 <= idx < |df.rows| then Ok(Get(df.rows[idx], "Label", NaN)) else Err(KEY_ERROR)
  }

  // ---------------------------------------------------------------- the vote

  /** A training phone's position, its similarity to the query and its label. */
  datatype Neighbour = Neighbour(index: nat, similarity: real, category: Value)

  /** The similarity `calculate_similarity` computes. */
  function SimilarityTo(w: Weights, sqrt: real -> real, query: map<string, real>, cse: map<string, real>): real
    requires IsSqrt(sqrt)
  {
    Similarity(sqrt(SquaredDistance(w, query, cse)))
  }

  /** `sort(key=lambda x: x[1], reverse=True)`: non-increasing similarity, ties kept in order. */
  predicate Closer(a: Neighbour, b: Neighbour) { a.similarity >= b.similarity }

  lemma CloserIsPreorder()
    ensures TotalPreorder(Closer)
  {
  }

  /** The `k` neighbours the vote uses: `similarities[:k]` after the sort. */
  function Nearest(ns: seq<Neighbour>, k: int): seq<Neighbour>
  {
    Take(Sort(ns, Closer), k)
  }

  function Labels(ns: seq<Neighbour>): (r: seq<Value>)
    ensures |r| == |ns| && forall i :: 0 <= i < |ns| ==> r[i] == ns[i].category
  {
    seq(|ns|, i requires 0 <= i < |ns| => ns[i].category)
  }

  /** The first index of `s[..n]` whose key is largest: Python's `max(s, key=key)`. */
  function FirstMaximal<T>(s: seq<T>, key: T -> real, n: nat): (r: nat)
    requires 0 < n <= |s|
    ensures r < n
  {
    if n == 1 then 0
    else
      var b := FirstMaximal(s, key, n - 1);
      if key(s[n - 1]) > key(s[b]) then n - 1 else b
  }

  /** The first maximal element has the largest key, and every element before it a smaller one. */
  lemma {:induction false} FirstMaximalSpec<T>(s: seq<T>, key: T -> real, n: nat)
    requires 0 < n <= |s|
    ensures forall j :: 0 <= j < n ==> key(s[j]) <= key(s[FirstMaximal(s, key, n)])
    ensures forall j :: 0 <= j < FirstMaximal(s, key, n) ==> key(s[j]) < key(s[FirstMaximal(s, key, n)])
  {
    if n > 1 {
      FirstMaximalSpec(s, key, n - 1);
    }
  }

  /** How often a label occurs among `labels`. */
  function CountIn(labels: seq<Value>): Value -> real
  {
    (x: Value) => multiset(labels)[x] as real
  }

  /**
   * `Counter(labels).most_common(1)[0][0]`: the label counted most often,
   * the first seen among equals; no labels at all is an index error.
   */
  function Vote(labels: seq<Value>): Result<Value>
  {
    if labels == [] then Err("list index out of range")
    else Ok(labels[FirstMaximal(labels, CountIn(labels), |labels|)])
  }

  /**
   * The vote is a label that occurs, no label occurs more often, and a
   * label seen earlier occurs less often: ties go to the first seen.
   */
  lemma VoteSpec(labels: seq<Value>)
    ensures Vote(labels).Err? <==> labels == []
    ensures Vote(labels).Ok? ==>
      var l := Vote(labels).value;
      && l in labels
      && (forall x :: multiset(labels)[x] <= multiset(labels)[l])
      && (forall j :: 0 <= j < |labels| && labels[j] != l && multiset(labels)[labels[j]] == multiset(labels)[l] ==>
            exists i :: 0 <= i < j && labels[i] == l)
  {
    if labels != [] {
      var r := FirstMaximal(labels, CountIn(labels), |labels|);
      var l := labels[r];
      FirstMaximalSpec(labels, CountIn(labels), |labels|);
      forall x ensures multiset(labels)[x] <= multiset(labels)[l] {
        if x in labels {
          var j :| 0 <= j < |labels| && labels[j] == x;
          assert CountIn(labels)(labels[j]) <= CountIn(labels)(l);
        }
      }
      forall j | 0 <= j < |labels| && labels[j] != l && multiset(labels)[labels[j]] == multiset(labels)[l]
        ensures exists i :: 0 <= i < j && labels[i] == l
      {
        assert CountIn(labels)(labels[j]) == CountIn(labels)(l);
        assert r < j && labels[r] == l;
      }
    }
  }

  /** The label the neighbours vote for. */
  function Predicted(ns: seq<Neighbour>, k: int): Result<Value>
  {
    Vote(Labels(Nearest(ns, k)))
  }

  /**
   * The vote is over the `k` most similar neighbours (all of them when
   * there are fewer): none left out is more similar than one taken. An
   * empty training set, or `k <= 0` leaving no neighbours, is an error.
   */
  lemma NearestSpec(ns: seq<Neighbour>, k: int)
    ensures var top := Nearest(ns, k);
      && (0 <= k ==> |top| == if k <= |ns| then k else |ns|)
      && multiset(top) <= multiset(ns)
      && (forall a, b :: a in top && b in multiset(ns) - multiset(top) ==> a.similarity >= b.similarity)
      && (forall i, j :: 0 <= i < j < |top| ==> top[i].similarity >= top[j].similarity)
    ensures Predicted(ns, k).Err? <==> Nearest(ns, k) == []
  {
    var s := Sort(ns, Closer);
    var m := SliceBound(k, |s|);
    CloserIsPreorder();
    SortSorted(ns, Closer);
    assert forall i, j :: 0 <= i < j < |s| ==> s[i].similarity >= s[j].similarity by {
      forall i, j | 0 <= i < j < |s| ensures s[i].similarity >= s[j].similarity {
        assert Closer(s[i], s[j]);
      }
    }
    PrefixDominates(s, m);
    VoteSpec(Labels(s[..m]));
  }

  /** In a sequence ordered by non-increasing similarity, a prefix holds the most similar elements. */
  lemma PrefixDominates(s: seq<Neighbour>, m: nat)
    requires m <= |s|
    requires forall i, j :: 0 <= i < j < |s| ==> s[i].similarity >= s[j].similarity
    ensures multiset(s[..m]) <= multiset(s)
    ensures forall a, b :: a in s[..m] && b in multiset(s) - multiset(s[..m]) ==> a.similarity >= b.similarity
    ensures forall i, j :: 0 <= i < j < |s[..m]| ==> s[..m][i].similarity >= s[..m][j].similarity
  {
    PrefixRest(s, m);
    forall a, b | a in s[..m] && b in s[m..] ensures a.similarity >= b.similarity {
      var i :| 0 <= i < m && s[..m][i] == a;
      var j :| 0 <= j < |s| - m && s[m..][j] == b;
      assert s[i] == a && s[m + j] == b;
    }
  }

  /** What a prefix leaves of a sequence's elements is the rest of the sequence. */
  lemma PrefixRest<T>(s: seq<T>, m: nat)
    requires m <= |s|
    ensures multiset(s[..m]) <= multiset(s)
    ensures multiset(s) - multiset(s[..m]) == multiset(s[m..])
    ensures forall b :: b in multiset(s) - multiset(s[..m]) ==> b in s[m..]
  {
    assert s == s[..m] + s[m..];
    assert multiset(s) == multiset(s[..m]) + multiset(s[m..]);
  }

  /** `step(0)`, …, `step(n - 1)` appended in order: a loop that stops at its first exception. */
  function Mapped<B>(n: nat, step: nat -> Result<B>): Result<seq<B>>
  {
    if n == 0 then Ok([])
    else
      match Mapped(n - 1, step)
      case Err(e) => Err(e)
      case Ok(xs) =>
        match step(n - 1)
        case Err(e) => Err(e)
        case Ok(x) => Ok(xs + [x])
  }

  /** Once the loop has failed, later iterations do not run: the first exception is the outcome. */
  lemma {:induction false} MappedFailurePersists<B>(n: nat, m: nat, step: nat -> Result<B>)
    requires n <= m && Mapped(n, step).Err?
    ensures Mapped(m, step) == Mapped(n, step)
    decreases m - n
  {
    if n < m {
      MappedFailurePersists(n + 1, m, step);
    }
  }

  /** Loops whose iterations give the same outcomes give the same outcome. */
  lemma {:induction false} MappedCongruence<B>(n: nat, step: nat -> Result<B>, other: nat -> Result<B>)
    requires forall i :: 0 <= i < n ==> step(i) == other(i)
    ensures Mapped(n, step) == Mapped(n, other)
  {
    if n > 0 {
      MappedCongruence(n - 1, step, other);
      assert step(n - 1) == other(n - 1);
    }
  }

  /** One more iteration: its exception ends the loop, or its value is appended. */
  lemma MappedStep<B>(n: nat, step: nat -> Result<B>, xs: seq<B>)
    requires Mapped(n, step) == Ok(xs)
    ensures step(n).Err? ==> Mapped(n + 1, step) == Err(step(n).error)
    ensures step(n).Ok? ==> Mapped(n + 1, step) == Ok(xs + [step(n).value])
  {
  }

  /** The loop fails exactly when some iteration does; otherwise result `i` is what iteration `i` gives. */
  lemma {:induction false} MappedSpec<B>(n: nat, step: nat -> Result<B>)
    ensures Mapped(n, step).Err? <==> exists i :: 0 <= i < n && step(i).Err?
    ensures Mapped(n, step).Ok? ==>
      |Mapped(n, step).value| == n && forall i :: 0 <= i < n ==> step(i) == Ok(Mapped(n, step).value[i])
  {
    if n > 0 {
      MappedSpec(n - 1, step);
    }
  }

  /** Training phone `i` scored against the query: its normalised features, then its label. */
  function NeighbourAt(w: Weights, sqrt: real -> real, query: map<string, real>, train: Frame, trainNorm: Frame, i: nat)
    : (r: Result<Neighbour>)
    requires IsSqrt(sqrt)
    ensures r.Ok? <==> IndexedFeatures(trainNorm, i).Ok? && LabelOf(train, i).Ok?
    ensures r.Ok? ==>
      && r.value.index == i && LabelOf(train, i) == Ok(r.value.category)
      && r.value.similarity == SimilarityTo(w, sqrt, query, IndexedFeatures(trainNorm, i).value)
      && 0.0 < r.value.similarity <= 1.0
  {
    match IndexedFeatures(trainNorm, i)
    case Err(e) => Err(e)
    case Ok(f) =>
      match LabelOf(train, i)
      case Err(e) => Err(e)
      case Ok(l) =>
        SimilarityRange(sqrt(SquaredDistance(w, query, f)));
        Ok(Neighbour(i, SimilarityTo(w, sqrt, query, f), l))
  }

  function NeighbourStep(w: Weights, sqrt: real -> real, query: map<string, real>, train: Frame, trainNorm: Frame)
    : nat -> Result<Neighbour>
    requires IsSqrt(sqrt)
  {
    (i: nat) => NeighbourAt(w, sqrt, query, train, trainNorm, i)
  }

  /** The neighbours of `predict_label`, one per training position. */
  function Neighbours(w: Weights, sqrt: real -> real, query: map<string, real>, train: Frame, trainNorm: Frame)
    : Result<seq<Neighbour>>
    requires IsSqrt(sqrt)
  {
    Mapped(|train.rows|, NeighbourStep(w, sqrt, query, train, trainNorm))
  }

  /**
   * Scoring fails exactly when some training phone has no label or
   * unreadable features; otherwise neighbour `i` is training phone `i`,
   * with its label and its similarity to the query, in (0, 1].
   */
  lemma NeighboursSpec(w: Weights, sqrt: real -> real, query: map<string, real>, train: Frame, trainNorm: Frame)
    requires IsSqrt(sqrt)
    ensures Neighbours(w, sqrt, query, train, trainNorm).Err? <==>
      exists i :: 0 <= i < |train.rows| && !(IndexedFeatures(trainNorm, i).Ok? && LabelOf(train, i).Ok?)
    ensures Neighbours(w, sqrt, query, train, trainNorm).Ok? ==>
      var ns := Neighbours(w, sqrt, query, train, trainNorm).value;
      && |ns| == |train.rows|
      && forall i :: 0 <= i < |ns| ==>
           && ns[i].index == i && LabelOf(train, i) == Ok(ns[i].category)
           && ns[i].similarity == SimilarityTo(w, sqrt, query, IndexedFeatures(trainNorm, i).value)
           && 0.0 < ns[i].similarity <= 1.0
  {
    var n := |train.rows|;
    var step := NeighbourStep(w, sqrt, query, train, trainNorm);
    MappedSpec(n, step);
    forall i | 0 <= i < n
      ensures step(i) == NeighbourAt(w, sqrt, query, train, trainNorm, i)
      ensures step(i).Ok? <==> IndexedFeatures(trainNorm, i).Ok? && LabelOf(train, i).Ok?
    {
    }
    if Mapped(n, step).Ok? {
      var ns := Mapped(n, step).value;
      forall i | 0 <= i < |ns|
        ensures ns[i].index == i && LabelOf(train, i) == Ok(ns[i].category)
        ensures ns[i].similarity == SimilarityTo(w, sqrt, query, IndexedFeatures(trainNorm, i).value)
        ensures 0.0 < ns[i].similarity <= 1.0
      {
        assert NeighbourAt(w, sqrt, query, train, trainNorm, i) == Ok(ns[i]);
      }
    }
  }

  /** What `predict_label` returns. */
  function PredictedLabel(w: Weights, sqrt: real -> real, k: int, query: map<string, real>, train: Frame, trainNorm: Frame)
    : Result<Value>
    requires IsSqrt(sqrt)
  {
    match Neighbours(w, sqrt, query, train, trainNorm)
    case Err(e) => Err(e)
    case Ok(ns) => Predicted(ns, k)
  }

  // ---------------------------------------------------------------- classifying the test set

  /** Test phone `i`: its features, the predicted label, then its actual label. */
  function ClassifiedAt(w: Weights, sqrt: real -> real, k: int, train: Frame, trainNorm: Frame, test: Frame, testNorm: Frame, i: nat)
    : (r: Result<(Value, Value)>)
    requires IsSqrt(sqrt)
    ensures r.Ok? ==>
      && LabelOf(test, i) == Ok(r.value.0)
      && IndexedFeatures(testNorm, i).Ok?
      && PredictedLabel(w, sqrt, k, IndexedFeatures(testNorm, i).value, train, trainNorm) == Ok(r.value.1)
  {
    match IndexedFeatures(testNorm, i)
    case Err(e) => Err(e)
    case Ok(q) =>
      match PredictedLabel(w, sqrt, k, q, train, trainNorm)
      case Err(e) => Err(e)
      case Ok(p) =>
        match LabelOf(test, i)
        case Err(e) => Err(e)
        case Ok(a) => Ok((a, p))
  }

  function ClassifyStep(w: Weights, sqrt: real -> real, k: int, train: Frame, trainNorm: Frame, test: Frame, testNorm: Frame)
    : nat -> Result<(Value, Value)>
    requires IsSqrt(sqrt)
  {
    (i: nat) => ClassifiedAt(w, sqrt, k, train, trainNorm, test, testNorm, i)
  }

  /** The `(actual, predicted)` pair of every test phone, in test order. */
  function Classified(w: Weights, sqrt: real -> real, k: int, train: Frame, trainNorm: Frame, test: Frame, testNorm: Frame)
    : Result<seq<(Value, Value)>>
    requires IsSqrt(sqrt)
  {
    Mapped(|test.rows|, ClassifyStep(w, sqrt, k, train, trainNorm, test, testNorm))
  }

  lemma PairsAppend(ps: seq<(Value, Value)>, y: (Value, Value))
    ensures Firsts(ps + [y]) == Firsts(ps) + [y.0] && Seconds(ps + [y]) == Seconds(ps) + [y.1]
  {
    assert Firsts(ps + [y]) == Firsts(ps) + [y.0];
    assert Seconds(ps + [y]) == Seconds(ps) + [y.1];
  }

  /** The pairs behind a classification: one per test row, each with the row's own label first. */
  lemma ClassifiedLabels(w: Weights, sqrt: real -> real, k: int, train: Frame, trainNorm: Frame, test: Frame, testNorm: Frame)
    requires IsSqrt(sqrt) && Classified(w, sqrt, k, train, trainNorm, test, testNorm).Ok?
    ensures var ps := Classified(w, sqrt, k, train, trainNorm, test, testNorm).value;
      |ps| == |test.rows| && forall i :: 0 <= i < |ps| ==> LabelOf(test, i) == Ok(ps[i].0)
  {
    ClassifiedSpec(w, sqrt, k, train, trainNorm, test, testNorm);
  }

  /** The features of a row depend only on what the row holds, not on how its dict is built. */
  lemma {:induction false} FeaturesOfAlikeRows(table: seq<(string, string)>, columns: seq<string>, a: Row, b: Row)
    requires forall d :: Get(a, d, NaN) == Get(b, d, NaN)
    ensures Features(table, columns, a) == Features(table, columns, b)
  {
    if table != [] {
      FeaturesOfAlikeRows(table[..|table| - 1], columns, a, b);
      var entry := table[|table| - 1];
      if FeatureSource(columns, entry).Some? {
        assert Get(a, FeatureSource(columns, entry).value, NaN) == Get(b, FeatureSource(columns, entry).value, NaN);
      }
    }
  }

  /** Frames that read alike give every position the same features. */
  lemma IndexedFeaturesOfSameCells(a: Frame, b: Frame, idx: int)
    requires SameCells(a, b)
    ensures IndexedFeatures(a, idx) == IndexedFeatures(b, idx)
  {
    if a.rows != [] {
      var j := if 0 <= idx < |a.rows| then idx else 0;
      forall d ensures Get(a.rows[j], d, NaN) == Get(b.rows[j], d, NaN) { }
      FeaturesOfAlikeRows(FEATURE_MAP, a.columns, a.rows[j], b.rows[j]);
    }
  }

  /**
   * The classification depends on the normalised frames only through their
   * columns and what their rows hold: frames that read alike classify
   * every test phone alike.
   */
  lemma ClassifiedOfSameCells(w: Weights, sqrt: real -> real, k: int, train: Frame, trainNorm: Frame, trainNorm': Frame,
                              test: Frame, testNorm: Frame, testNorm': Frame)
    requires IsSqrt(sqrt) && SameCells(trainNorm, trainNorm') && SameCells(testNorm, testNorm')
    ensures Classified(w, sqrt, k, train, trainNorm, test, testNorm) == Classified(w, sqrt, k, train, trainNorm', test, testNorm')
  {
    forall q: map<string, real>
      ensures PredictedLabel(w, sqrt, k, q, train, trainNorm) == PredictedLabel(w, sqrt, k, q, train, trainNorm')
    {
      var step, other := NeighbourStep(w, sqrt, q, train, trainNorm), NeighbourStep(w, sqrt, q, train, trainNorm');
      forall i | 0 <= i < |train.rows| ensures step(i) == other(i) {
        IndexedFeaturesOfSameCells(trainNorm, trainNorm', i);
      }
      MappedCongruence(|train.rows|, step, other);
    }
    var step, other := ClassifyStep(w, sqrt, k, train, trainNorm, test, testNorm), ClassifyStep(w, sqrt, k, train, trainNorm', test, testNorm');
    forall i | 0 <= i < |test.rows| ensures step(i) == other(i) {
      IndexedFeaturesOfSameCells(testNorm, testNorm', i);
    }
    MappedCongruence(|test.rows|, step, other);
  }

  /**
   * One pair per test phone, in test order: the phone's own label, and the
   * vote of the training phones nearest to it.
   */
  lemma ClassifiedSpec(w: Weights, sqrt: real -> real, k: int, train: Frame, trainNorm: Frame, test: Frame, testNorm: Frame)
    requires IsSqrt(sqrt) && Classified(w, sqrt, k, train, trainNorm, test, testNorm).Ok?
    ensures var ps := Classified(w, sqrt, k, train, trainNorm, test, testNorm).value;
      && |ps| == |test.rows|
      && forall i :: 0 <= i < |ps| ==>
           && LabelOf(test, i) == Ok(ps[i].0)
           && IndexedFeatures(testNorm, i).Ok?
           && PredictedLabel(w, sqrt, k, IndexedFeatures(testNorm, i).value, train, trainNorm) == Ok(ps[i].1)
  {
    var step := ClassifyStep(w, sqrt, k, train, trainNorm, test, testNorm);
    MappedSpec(|test.rows|, step);
    var ps := Classified(w, sqrt, k, train, trainNorm, test, testNorm).value;
    forall i | 0 <= i < |ps|
      ensures LabelOf(test, i) == Ok(ps[i].0) && IndexedFeatures(testNorm, i).Ok?
      ensures PredictedLabel(w, sqrt, k, IndexedFeatures(testNorm, i).value, train, trainNorm) == Ok(ps[i].1)
    {
      assert step(i) == Ok(ps[i]);
    }
  }

  // ---------------------------------------------------------------- scores

  /** Positions where the actual label is `a` and the predicted one `b`. */
  function Cell(yTrue: seq<Value>, yPred: seq<Value>, a: Value, b: Value): nat
    requires |yTrue| == |yPred|
  {
    if yTrue == [] then 0
    else
      var n := |yTrue| - 1;
      Cell(yTrue[..n], yPred[..n], a, b) + (if yTrue[n] == a && yPred[n] == b then 1 else 0)
  }

  /** Positions where the prediction is right. */
  function Hits(yTrue: seq<Value>, yPred: seq<Value>): nat
    requires |yTrue| == |yPred|
  {
    if yTrue == [] then 0
    else
      var n := |yTrue| - 1;
      Hits(yTrue[..n], yPred[..n]) + (if yTrue[n] == yPred[n] then 1 else 0)
  }

  /** Positions whose actual label is one of the three. */
  function Known(yTrue: seq<Value>, yPred: seq<Value>): nat
    requires |yTrue| == |yPred|
  {
    if yTrue == [] then 0
    else
      var n := |yTrue| - 1;
      Known(yTrue[..n], yPred[..n]) + (if yTrue[n] in LABELS then 1 else 0)
  }

  /** `confusion_matrix(y_true, y_pred, labels=LABELS)`: row = actual, column = predicted. */
  function ConfusionMatrix(yTrue: seq<Value>, yPred: seq<Value>): (cm: seq<seq<nat>>)
    requires |yTrue| == |yPred|
    ensures |cm| == 3 && forall i :: 0 <= i < 3 ==> |cm[i]| == 3
    ensures forall i, j :: 0 <= i < 3 && 0 <= j < 3 ==> cm[i][j] == Cell(yTrue, yPred, LABELS[i], LABELS[j])
  {
    seq(3, i requires 0 <= i < 3 => seq(3, j requires 0 <= j < 3 => Cell(yTrue, yPred, LABELS[i], LABELS[j])))
  }

  function RowSum(cm: seq<seq<nat>>, i: nat): nat
    requires |cm| == 3 && forall r :: 0 <= r < 3 ==> |cm[r]| == 3
    requires i < 3
  {
    cm[i][0] + cm[i][1] + cm[i][2]
  }

  function ColumnSum(cm: seq<seq<nat>>, j: nat): nat
    requires |cm| == 3 && forall r :: 0 <= r < 3 ==> |cm[r]| == 3
    requires j < 3
  {
    cm[0][j] + cm[1][j] + cm[2][j]
  }

  function Trace(cm: seq<seq<nat>>): nat
    requires |cm| == 3 && forall r :: 0 <= r < 3 ==> |cm[r]| == 3
  {
    cm[0][0] + cm[1][1] + cm[2][2]
  }

  function MatrixTotal(cm: seq<seq<nat>>): nat
    requires |cm| == 3 && forall r :: 0 <= r < 3 ==> |cm[r]| == 3
  {
    RowSum(cm, 0) + RowSum(cm, 1) + RowSum(cm, 2)
  }

  /**
   * Every position with one of the labels as its actual label and one as its
   * prediction is counted in exactly one cell, and the right ones on the
   * diagonal.
   */
  lemma MatrixCounts(yTrue: seq<Value>, yPred: seq<Value>)
    requires |yTrue| == |yPred|
    requires forall i :: 0 <= i < |yPred| ==> yPred[i] in LABELS
    ensures var cm := ConfusionMatrix(yTrue, yPred);
      && MatrixTotal(cm) == Known(yTrue, yPred)
      && Trace(cm) == Hits(yTrue, yPred)
  {
    KnownByCells(yTrue, yPred);
    HitsByCells(yTrue, yPred);
    var cm := ConfusionMatrix(yTrue, yPred);
    assert RowSum(cm, 0) == LabelRow(yTrue, yPred, GAMING);
    assert RowSum(cm, 1) == LabelRow(yTrue, yPred, PHOTOGRAPHER);
    assert RowSum(cm, 2) == LabelRow(yTrue, yPred, DAILY);
  }

  /** Row `a` of the matrix: positions whose actual label is `a` and whose prediction is one of the three. */
  function LabelRow(yTrue: seq<Value>, yPred: seq<Value>, a: Value): nat
    requires |yTrue| == |yPred|
  {
    Cell(yTrue, yPred, a, GAMING) + Cell(yTrue, yPred, a, PHOTOGRAPHER) + Cell(yTrue, yPred, a, DAILY)
  }

  lemma {:induction false} KnownByCells(yTrue: seq<Value>, yPred: seq<Value>)
    requires |yTrue| == |yPred|
    requires forall i :: 0 <= i < |yPred| ==> yPred[i] in LABELS
    ensures LabelRow(yTrue, yPred, GAMING) + LabelRow(yTrue, yPred, PHOTOGRAPHER) + LabelRow(yTrue, yPred, DAILY)
      == Known(yTrue, yPred)
  {
    if yTrue != [] {
      var n := |yTrue| - 1;
      KnownByCells(yTrue[..n], yPred[..n]);
      assert yPred[n] in LABELS;
    }
  }

  lemma {:induction false} HitsByCells(yTrue: seq<Value>, yPred: seq<Value>)
    requires |yTrue| == |yPred|
    requires forall i :: 0 <= i < |yPred| ==> yPred[i] in LABELS
    ensures Cell(yTrue, yPred, GAMING, GAMING) + Cell(yTrue, yPred, PHOTOGRAPHER, PHOTOGRAPHER) + Cell(yTrue, yPred, DAILY, DAILY)
      == Hits(yTrue, yPred)
  {
    if yTrue != [] {
      var n := |yTrue| - 1;
      HitsByCells(yTrue[..n], yPred[..n]);
      assert yPred[n] in LABELS;
    }
  }

  lemma {:induction false} KnownAll(yTrue: seq<Value>, yPred: seq<Value>)
    requires |yTrue| == |yPred|
    requires forall i :: 0 <= i < |yTrue| ==> yTrue[i] in LABELS
    ensures Known(yTrue, yPred) == |yTrue|
  {
    if yTrue != [] {
      KnownAll(yTrue[..|yTrue| - 1], yPred[..|yTrue| - 1]);
    }
  }

  lemma {:induction false} HitsBound(yTrue: seq<Value>, yPred: seq<Value>)
    requires |yTrue| == |yPred|
    ensures Hits(yTrue, yPred) <= |yTrue|
  {
    if yTrue != [] {
      HitsBound(yTrue[..|yTrue| - 1], yPred[..|yTrue| - 1]);
    }
  }

  /** `a / b`, or 0 when `b` is 0 (`zero_division=0`). */
  function Ratio(a: nat, b: nat): real
  {
    if b == 0 then 0.0 else a as real / b as real
  }

  /** The three per-label values averaged with the labels' support as weights; 0 without support. */
  function Weighted(cm: seq<seq<nat>>, m: seq<real>): real
    requires |cm| == 3 && forall r :: 0 <= r < 3 ==> |cm[r]| == 3
    requires |m| == 3
  {
    Mean(RowSum(cm, 0), RowSum(cm, 1), RowSum(cm, 2), m[0], m[1], m[2])
  }

  /** The mean of three values with weights `s0`, `s1`, `s2`; 0 when all weights are 0. */
  function Mean(s0: nat, s1: nat, s2: nat, m0: real, m1: real, m2: real): real
  {
    if s0 + s1 + s2 == 0 then 0.0
    else (s0 as real * m0 + s1 as real * m1 + s2 as real * m2) / (s0 + s1 + s2) as real
  }

  /** Precision, recall and F1 of each label, in label order. */
  function PerLabel(cm: seq<seq<nat>>): (r: (seq<real>, seq<real>, seq<real>))
    requires |cm| == 3 && forall r :: 0 <= r < 3 ==> |cm[r]| == 3
    ensures |r.0| == 3 && |r.1| == 3 && |r.2| == 3
  {
    (seq(3, i requires 0 <= i < 3 => Ratio(cm[i][i], ColumnSum(cm, i))),
     seq(3, i requires 0 <= i < 3 => Ratio(cm[i][i], RowSum(cm, i))),
     seq(3, i requires 0 <= i < 3 => Ratio(2 * cm[i][i], RowSum(cm, i) + ColumnSum(cm, i))))
  }

  /** The four fractions sklearn reports. */
  datatype Scores = Scores(accuracy: real, precision: real, recall: real, f1: real)

  /** Accuracy over all pairs; weighted precision, recall and F1 over the three labels. */
  function ScoresOf(yTrue: seq<Value>, yPred: seq<Value>): Scores
    requires |yTrue| == |yPred| && |yTrue| > 0
  {
    var cm := ConfusionMatrix(yTrue, yPred);
    var p := PerLabel(cm);
    Scores(Hits(yTrue, yPred) as real / |yTrue| as real, Weighted(cm, p.0), Weighted(cm, p.1), Weighted(cm, p.2))
  }

  lemma RatioBounds(a: nat, b: nat)
    requires a <= b
    ensures 0.0 <= Ratio(a, b) <= 1.0
    ensures b as real * Ratio(a, b) == a as real
  {
    if b > 0 {
      FractionBounds(a as real, b as real);
    }
  }

  lemma FractionBounds(a: real, b: real)
    requires 0.0 <= a <= b && 0.0 < b
    ensures 0.0 <= a / b <= 1.0 && b * (a / b) == a
  {
  }

  lemma ScaledBelow(a: real, x: real)
    requires 0.0 <= a && 0.0 <= x <= 1.0
    ensures 0.0 <= a * x <= a
  {
  }

  /** A weighted mean of fractions is a fraction. */
  lemma MeanBounds(s0: nat, s1: nat, s2: nat, m0: real, m1: real, m2: real)
    requires 0.0 <= m0 <= 1.0 && 0.0 <= m1 <= 1.0 && 0.0 <= m2 <= 1.0
    ensures 0.0 <= Mean(s0, s1, s2, m0, m1, m2) <= 1.0
  {
    if s0 + s1 + s2 > 0 {
      var a0, a1, a2 := s0 as real, s1 as real, s2 as real;
      MeanQuotient(s0, s1, s2, m0, m1, m2, a0, a1, a2);
      FractionOfMeans(a0, a1, a2, m0, m1, m2);
    }
  }

  lemma FractionOfMeans(a0: real, a1: real, a2: real, m0: real, m1: real, m2: real)
    requires 0.0 <= a0 && 0.0 <= a1 && 0.0 <= a2 && 0.0 < a0 + a1 + a2
    requires 0.0 <= m0 <= 1.0 && 0.0 <= m1 <= 1.0 && 0.0 <= m2 <= 1.0
    ensures 0.0 <= (a0 * m0 + a1 * m1 + a2 * m2) / (a0 + a1 + a2) <= 1.0
  {
    ScaledBelow(a0, m0);
    ScaledBelow(a1, m1);
    ScaledBelow(a2, m2);
    WeightedFraction(a0 * m0, a1 * m1, a2 * m2, a0, a1, a2);
  }

  lemma WeightedFraction(p0: real, p1: real, p2: real, a0: real, a1: real, a2: real)
    requires 0.0 <= p0 <= a0 && 0.0 <= p1 <= a1 && 0.0 <= p2 <= a2 && 0.0 < a0 + a1 + a2
    ensures 0.0 <= (p0 + p1 + p2) / (a0 + a1 + a2) <= 1.0
  {
    SumBelow(p0, p1, p2, a0, a1, a2);
    FractionBounds(p0 + p1 + p2, a0 + a1 + a2);
  }

  lemma MeanQuotient(s0: nat, s1: nat, s2: nat, m0: real, m1: real, m2: real, a0: real, a1: real, a2: real)
    requires s0 + s1 + s2 > 0 && a0 == s0 as real && a1 == s1 as real && a2 == s2 as real
    ensures Mean(s0, s1, s2, m0, m1, m2) == (a0 * m0 + a1 * m1 + a2 * m2) / (a0 + a1 + a2)
  {
    assert (s0 + s1 + s2) as real == a0 + a1 + a2;
  }

  lemma SumBelow(p0: real, p1: real, p2: real, a0: real, a1: real, a2: real)
    requires 0.0 <= p0 <= a0 && 0.0 <= p1 <= a1 && 0.0 <= p2 <= a2
    ensures 0.0 <= p0 + p1 + p2 <= a0 + a1 + a2
  {
  }

  /** Weighting each label's hit rate by its support gives the overall hit rate. */
  lemma MeanOfRatios(s0: nat, s1: nat, s2: nat, t0: nat, t1: nat, t2: nat)
    requires t0 <= s0 && t1 <= s1 && t2 <= s2
    ensures Mean(s0, s1, s2, Ratio(t0, s0), Ratio(t1, s1), Ratio(t2, s2)) == Ratio(t0 + t1 + t2, s0 + s1 + s2)
  {
    if s0 + s1 + s2 > 0 {
      var r0, r1, r2 := Ratio(t0, s0), Ratio(t1, s1), Ratio(t2, s2);
      var a0, a1, a2 := s0 as real, s1 as real, s2 as real;
      MeanQuotient(s0, s1, s2, r0, r1, r2, a0, a1, a2);
      RatioBounds(t0, s0);
      RatioBounds(t1, s1);
      RatioBounds(t2, s2);
      SumQuotient(a0 * r0, a1 * r1, a2 * r2, t0 as real, t1 as real, t2 as real, a0 + a1 + a2);
      assert (t0 + t1 + t2) as real == t0 as real + t1 as real + t2 as real;
      assert (s0 + s1 + s2) as real == a0 + a1 + a2;
    }
  }

  lemma SumQuotient(p0: real, p1: real, p2: real, q0: real, q1: real, q2: real, d: real)
    requires p0 == q0 && p1 == q1 && p2 == q2 && d != 0.0
    ensures (p0 + p1 + p2) / d == (q0 + q1 + q2) / d
  {
  }

  lemma WeightedBounds(cm: seq<seq<nat>>, m: seq<real>)
    requires |cm| == 3 && forall r :: 0 <= r < 3 ==> |cm[r]| == 3
    requires |m| == 3 && forall i :: 0 <= i < 3 ==> 0.0 <= m[i] <= 1.0
    ensures 0.0 <= Weighted(cm, m) <= 1.0
  {
    MeanBounds(RowSum(cm, 0), RowSum(cm, 1), RowSum(cm, 2), m[0], m[1], m[2]);
  }

  /** Precision, recall and F1 of each label are fractions. */
  lemma PerLabelBounds(cm: seq<seq<nat>>)
    requires |cm| == 3 && forall r :: 0 <= r < 3 ==> |cm[r]| == 3
    ensures var p := PerLabel(cm);
      forall i :: 0 <= i < 3 ==> 0.0 <= p.0[i] <= 1.0 && 0.0 <= p.1[i] <= 1.0 && 0.0 <= p.2[i] <= 1.0
  {
    var p := PerLabel(cm);
    forall i | 0 <= i < 3 ensures 0.0 <= p.0[i] <= 1.0 && 0.0 <= p.1[i] <= 1.0 && 0.0 <= p.2[i] <= 1.0 {
      RatioBounds(cm[i][i], ColumnSum(cm, i));
      RatioBounds(cm[i][i], RowSum(cm, i));
      RatioBounds(2 * cm[i][i], RowSum(cm, i) + ColumnSum(cm, i));
    }
  }

  /** Every score is a fraction in [0, 1]. */
  lemma ScoresBounds(yTrue: seq<Value>, yPred: seq<Value>)
    requires |yTrue| == |yPred| && |yTrue| > 0
    ensures var s := ScoresOf(yTrue, yPred);
      && 0.0 <= s.accuracy <= 1.0 && 0.0 <= s.precision <= 1.0 && 0.0 <= s.recall <= 1.0 && 0.0 <= s.f1 <= 1.0
  {
    var cm := ConfusionMatrix(yTrue, yPred);
    var p := PerLabel(cm);
    HitsBound(yTrue, yPred);
    FractionBounds(Hits(yTrue, yPred) as real, |yTrue| as real);
    PerLabelBounds(cm);
    WeightedBounds(cm, p.0);
    WeightedBounds(cm, p.1);
    WeightedBounds(cm, p.2);
  }

  /**
   * Support-weighted recall is the share of right predictions among the
   * positions the matrix counts; when every actual label and every
   * prediction is one of the three, it is the accuracy.
   */
  lemma WeightedRecallIsAccuracy(yTrue: seq<Value>, yPred: seq<Value>)
    requires |yTrue| == |yPred| && |yTrue| > 0
    requires forall i :: 0 <= i < |yTrue| ==> yTrue[i] in LABELS && yPred[i] in LABELS
    ensures ScoresOf(yTrue, yPred).recall == ScoresOf(yTrue, yPred).accuracy
  {
    var cm := ConfusionMatrix(yTrue, yPred);
    MatrixCounts(yTrue, yPred);
    KnownAll(yTrue, yPred);
    RecallIsHitRate(cm);
  }

  /** The support-weighted recall of a matrix is its diagonal over its total. */
  lemma RecallIsHitRate(cm: seq<seq<nat>>)
    requires |cm| == 3 && forall r :: 0 <= r < 3 ==> |cm[r]| == 3
    ensures Weighted(cm, PerLabel(cm).1) == Ratio(Trace(cm), MatrixTotal(cm))
  {
    var p := PerLabel(cm);
    var s0, s1, s2 := RowSum(cm, 0), RowSum(cm, 1), RowSum(cm, 2);
    assert p.1[0] == Ratio(cm[0][0], s0) && p.1[1] == Ratio(cm[1][1], s1) && p.1[2] == Ratio(cm[2][2], s2);
    MeanOfRatios(s0, s1, s2, cm[0][0], cm[1][1], cm[2][2]);
  }

  // ---------------------------------------------------------------- reported results

  /** `EvaluationMetrics`: the fractions to 4 places and as percentages to 2. */
  datatype Metrics = Metrics(
    accuracy: real, precision: real, recall: real, f1Score: real,
    accuracyPct: real, precisionPct: real, recallPct: real, f1ScorePct: real)

  function MetricsOf(s: Scores): Metrics
  {
    Metrics(RoundTo(s.accuracy, 4), RoundTo(s.precision, 4), RoundTo(s.recall, 4), RoundTo(s.f1, 4),
            RoundTo(s.accuracy * 100.0, 2), RoundTo(s.precision * 100.0, 2), RoundTo(s.recall * 100.0, 2), RoundTo(s.f1 * 100.0, 2))
  }

  /** A fraction in [0, 1] reads in [0, 1] to 4 places and in [0, 100] as a percentage. */
  lemma Rounded(x: real)
    requires 0.0 <= x <= 1.0
    ensures 0.0 <= RoundTo(x, 4) <= 1.0 && 0.0 <= RoundTo(x * 100.0, 2) <= 100.0
  {
    RoundToAtLeast(x, 0.0, 4);
    RoundToAtMost(x, 1.0, 4);
    RoundToAtLeast(x * 100.0, 0.0, 2);
    RoundToAtMost(x * 100.0, 100.0, 2);
  }

  /** Reported metrics stay within their ranges. */
  lemma MetricsBounds(yTrue: seq<Value>, yPred: seq<Value>)
    requires |yTrue| == |yPred| && |yTrue| > 0
    ensures var m := MetricsOf(ScoresOf(yTrue, yPred));
      && 0.0 <= m.accuracy <= 1.0 && 0.0 <= m.precision <= 1.0 && 0.0 <= m.recall <= 1.0 && 0.0 <= m.f1Score <= 1.0
      && 0.0 <= m.accuracyPct <= 100.0 && 0.0 <= m.precisionPct <= 100.0
      && 0.0 <= m.recallPct <= 100.0 && 0.0 <= m.f1ScorePct <= 100.0
  {
    var s := ScoresOf(yTrue, yPred);
    ScoresBounds(yTrue, yPred);
    Rounded(s.accuracy);
    Rounded(s.precision);
    Rounded(s.recall);
    Rounded(s.f1);
  }

  /** `ConfusionMatrixData`. */
  datatype MatrixData = MatrixData(
    truePositives: nat, trueNegatives: nat, falsePositives: nat, falseNegatives: nat,
    matrix: seq<seq<nat>>, labels: seq<Value>)

  /** `_create_confusion_matrix_data`: the trace, and the wrong predictions split in two halves. */
  function MatrixDataOf(cm: seq<seq<nat>>): MatrixData
    requires |cm| == 3 && forall r :: 0 <= r < 3 ==> |cm[r]| == 3
  {
    var tp := Trace(cm);
    var wrong := MatrixTotal(cm) - tp;
    MatrixData(tp, 0, wrong / 2, wrong / 2, cm, LABELS)
  }

  /**
   * The true positives are the diagonal, at most the total; false
   * positives and negatives are both half the off-diagonal count rounded
   * down, so together they miss one exactly when that count is odd; there
   * are never true negatives.
   */
  lemma MatrixDataSpec(cm: seq<seq<nat>>)
    requires |cm| == 3 && forall r :: 0 <= r < 3 ==> |cm[r]| == 3
    ensures var d := MatrixDataOf(cm);
      && d.truePositives == Trace(cm) <= MatrixTotal(cm)
      && d.falsePositives == d.falseNegatives
      && d.falsePositives + d.falseNegatives <= MatrixTotal(cm) - Trace(cm)
      && (d.falsePositives + d.falseNegatives == MatrixTotal(cm) - Trace(cm) <==> (MatrixTotal(cm) - Trace(cm)) % 2 == 0)
      && d.trueNegatives == 0 && d.matrix == cm && d.labels == LABELS
  {
  }

  /** `EvaluationResult`, without its timestamp. */
  datatype EvaluationResult = EvaluationResult(
    scenarioName: string, trainSize: nat, testSize: nat, trainPercentage: real, testPercentage: real,
    metrics: Metrics, confusionMatrix: MatrixData, weightsUsed: Weights)

  /** `f"{int(train_ratio * 100)}-{int((1 - train_ratio) * 100)}"` for a whole percentage. */
  function ScenarioName(trainPercent: int): string
  {
    IntString(trainPercent) + "-" + IntString(100 - trainPercent)
  }

  /** `f` applied to each element, in order. */
  function MapSeq<A, B>(xs: seq<A>, f: A -> B): seq<B>
  {
    if xs == [] then [] else MapSeq(xs[..|xs| - 1], f) + [f(xs[|xs| - 1])]
  }

  lemma {:induction false} MapSeqSpec<A, B>(xs: seq<A>, f: A -> B)
    ensures |MapSeq(xs, f)| == |xs| && forall i :: 0 <= i < |xs| ==> MapSeq(xs, f)[i] == f(xs[i])
  {
    if xs != [] {
      var n := |xs| - 1;
      MapSeqSpec(xs[..n], f);
      forall i | 0 <= i < n ensures MapSeq(xs, f)[i] == f(xs[i]) {
        assert xs[..n][i] == xs[i];
      }
    }
  }

  lemma MapSeqAppend<A, B>(xs: seq<A>, x: A, f: A -> B)
    ensures MapSeq(xs + [x], f) == MapSeq(xs, f) + [f(x)]
  {
    assert (xs + [x])[..|xs|] == xs;
  }

  lemma MapSeqPrefix<A, B>(xs: seq<A>, i: nat, f: A -> B)
    requires i < |xs|
    ensures MapSeq(xs[..i + 1], f) == MapSeq(xs[..i], f) + [f(xs[i])]
  {
    assert xs[..i + 1][..i] == xs[..i];
  }

  function NameOf(r: EvaluationResult): string { r.scenarioName }

  /** The scenario names of some results, in order. */
  function Names(rs: seq<EvaluationResult>): seq<string>
  {
    MapSeq(rs, NameOf)
  }

  /** The names of the scenarios training on the given percentages, in order. */
  function ScenarioNames(ps: seq<int>): seq<string>
  {
    MapSeq(ps, ScenarioName)
  }

  /** Name `i` of the list is that of result `i`. */
  lemma NamesSpec(rs: seq<EvaluationResult>)
    ensures |Names(rs)| == |rs| && forall i :: 0 <= i < |rs| ==> Names(rs)[i] == rs[i].scenarioName
  {
    MapSeqSpec(rs, NameOf);
  }

  /** Name `i` of the list is that of the scenario training on `ps[i]` percent. */
  lemma ScenarioNamesSpec(ps: seq<int>)
    ensures |ScenarioNames(ps)| == |ps| && forall i :: 0 <= i < |ps| ==> ScenarioNames(ps)[i] == ScenarioName(ps[i])
  {
    MapSeqSpec(ps, ScenarioName);
  }

  /** The comparison of several scenarios. */
  datatype Comparison = Comparison(scenarios: seq<EvaluationResult>, bestScenario: string, comparisonSummary: Summary)

  /** `_create_comparison_summary`: `{}` for no results. */
  datatype Summary =
    | NoSummary
    | Summary(totalScenarios: nat, metricsComparison: map<string, seq<real>>, averageAccuracy: real, averageF1: real)

  function Percentages(m: Metrics): seq<real> { [m.accuracyPct, m.precisionPct, m.recallPct, m.f1ScorePct] }

  /** `metrics_comparison`: one entry per scenario name, a later result under the same name replacing an earlier one. */
  function MetricsComparison(rs: seq<EvaluationResult>): map<string, seq<real>>
  {
    if rs == [] then map[]
    else MetricsComparison(rs[..|rs| - 1])[rs[|rs| - 1].scenarioName := Percentages(rs[|rs| - 1].metrics)]
  }

  function SumAccuracy(rs: seq<EvaluationResult>): real
  {
    if rs == [] then 0.0 else SumAccuracy(rs[..|rs| - 1]) + rs[|rs| - 1].metrics.accuracyPct
  }

  function SumF1(rs: seq<EvaluationResult>): real
  {
    if rs == [] then 0.0 else SumF1(rs[..|rs| - 1]) + rs[|rs| - 1].metrics.f1ScorePct
  }

  function SummaryOf(rs: seq<EvaluationResult>): Summary
  {
    if rs == [] then NoSummary
    else Summary(|rs|, MetricsComparison(rs), RoundTo(SumAccuracy(rs) / |rs| as real, 2), RoundTo(SumF1(rs) / |rs| as real, 2))
  }

  /** The metric percentages of a result lie in [0, 100]. */
  predicate InRange(r: EvaluationResult)
  {
    && 0.0 <= r.metrics.accuracyPct <= 100.0 && 0.0 <= r.metrics.precisionPct <= 100.0
    && 0.0 <= r.metrics.recallPct <= 100.0 && 0.0 <= r.metrics.f1ScorePct <= 100.0
  }

  /** The comparison has an entry for exactly the scenario names of the results. */
  lemma {:induction false} MetricsComparisonKeys(rs: seq<EvaluationResult>)
    ensures forall name :: name in MetricsComparison(rs) <==> exists i :: 0 <= i < |rs| && rs[i].scenarioName == name
  {
    if rs != [] {
      var n := |rs| - 1;
      MetricsComparisonKeys(rs[..n]);
      forall name | name in MetricsComparison(rs) ensures exists i :: 0 <= i < |rs| && rs[i].scenarioName == name {
        if name != rs[n].scenarioName {
          assert name in MetricsComparison(rs[..n]);
          var i :| 0 <= i < n && rs[..n][i].scenarioName == name;
          assert rs[i] == rs[..n][i];
        }
      }
      forall name | exists i :: 0 <= i < |rs| && rs[i].scenarioName == name ensures name in MetricsComparison(rs) {
        var i :| 0 <= i < |rs| && rs[i].scenarioName == name;
        if i < n {
          assert rs[..n][i] == rs[i];
        }
      }
    }
  }

  /** Each entry is the percentages of the last result with that name. */
  lemma {:induction false} MetricsComparisonLast(rs: seq<EvaluationResult>, i: nat)
    requires i < |rs|
    requires forall j :: i < j < |rs| ==> rs[j].scenarioName != rs[i].scenarioName
    ensures rs[i].scenarioName in MetricsComparison(rs)
    ensures MetricsComparison(rs)[rs[i].scenarioName] == Percentages(rs[i].metrics)
  {
    var n := |rs| - 1;
    if i < n {
      assert rs[..n][i] == rs[i];
      forall j | i < j < n ensures rs[..n][j].scenarioName != rs[..n][i].scenarioName {
        assert rs[..n][j] == rs[j];
      }
      MetricsComparisonLast(rs[..n], i);
      assert rs[n].scenarioName != rs[i].scenarioName;
    }
  }

  lemma {:induction false} SumsBounded(rs: seq<EvaluationResult>)
    requires forall i :: 0 <= i < |rs| ==> InRange(rs[i])
    ensures 0.0 <= SumAccuracy(rs) <= 100.0 * |rs| as real
    ensures 0.0 <= SumF1(rs) <= 100.0 * |rs| as real
  {
    if rs != [] {
      SumsBounded(rs[..|rs| - 1]);
    }
  }

  /**
   * No results give `{}`; otherwise the summary counts the scenarios, has
   * an entry per scenario name, and averages percentages within [0, 100].
   */
  lemma SummarySpec(rs: seq<EvaluationResult>)
    requires forall i :: 0 <= i < |rs| ==> InRange(rs[i])
    ensures SummaryOf(rs).NoSummary? <==> rs == []
    ensures SummaryOf(rs).Summary? ==>
      var s := SummaryOf(rs);
      && s.totalScenarios == |rs|
      && (forall name :: name in s.metricsComparison <==> exists i :: 0 <= i < |rs| && rs[i].scenarioName == name)
      && 0.0 <= s.averageAccuracy <= 100.0 && 0.0 <= s.averageF1 <= 100.0
  {
    MetricsComparisonKeys(rs);
    if rs != [] {
      SumsBounded(rs);
      var n := |rs| as real;
      AverageBounds(SumAccuracy(rs), n);
      AverageBounds(SumF1(rs), n);
      RoundToAtLeast(SumAccuracy(rs) / n, 0.0, 2);
      RoundToAtMost(SumAccuracy(rs) / n, 100.0, 2);
      RoundToAtLeast(SumF1(rs) / n, 0.0, 2);
      RoundToAtMost(SumF1(rs) / n, 100.0, 2);
    }
  }

  lemma AverageBounds(sum: real, n: real)
    requires 0.0 < n && 0.0 <= sum <= 100.0 * n
    ensures 0.0 <= sum / n <= 100.0
  {
  }

  function F1Of(r: EvaluationResult): real { r.metrics.f1Score }

  function ByF1(): EvaluationResult -> real { (r: EvaluationResult) => F1Of(r) }

  /** `max(results, key=f1_score)`: the first result of highest F1; none is an error. */
  function Best(rs: seq<EvaluationResult>): Result<EvaluationResult>
  {
    if rs == [] then Err("max() arg is an empty sequence") else Ok(rs[FirstMaximal(rs, ByF1(), |rs|)])
  }

  /** The best scenario is one of the results, with an F1 no other result beats, the first such. */
  lemma BestSpec(rs: seq<EvaluationResult>)
    ensures Best(rs).Err? <==> rs == []
    ensures Best(rs).Ok? ==>
      && Best(rs).value in rs
      && (forall i :: 0 <= i < |rs| ==> rs[i].metrics.f1Score <= Best(rs).value.metrics.f1Score)
      && (forall i :: 0 <= i < |rs| && rs[i].metrics.f1Score == Best(rs).value.metrics.f1Score ==>
            exists j :: 0 <= j <= i && rs[j] == Best(rs).value)
  {
    if rs != [] {
      var b := FirstMaximal(rs, ByF1(), |rs|);
      FirstMaximalSpec(rs, ByF1(), |rs|);
      forall i | 0 <= i < |rs| ensures rs[i].metrics.f1Score <= rs[b].metrics.f1Score {
        assert ByF1()(rs[i]) <= ByF1()(rs[b]);
      }
      forall i | 0 <= i < |rs| && rs[i].metrics.f1Score == rs[b].metrics.f1Score
        ensures exists j :: 0 <= j <= i && rs[j] == rs[b]
      {
        assert ByF1()(rs[i]) == ByF1()(rs[b]);
        assert b <= i;
      }
    }
  }

  // ---------------------------------------------------------------- the evaluator

  class ModelEvaluator {
    const weights: Weights
    const k: int
    const preprocessor: Preprocessing.Preprocessor
    /** Built from `weights`. */
    const calculator: Calculator
    var evaluationResults: seq<EvaluationResult>

    ghost predicate Valid()
      reads this, preprocessor, calculator
    {
      preprocessor.Valid() && calculator.Valid()
    }

    constructor Init(w: Weights, k: int, p: Preprocessing.Preprocessor, c: Calculator)
      requires p.Valid() && c.Valid()
      ensures Valid() && weights == w && this.k == k && preprocessor == p && calculator == c && evaluationResults == []
    {
      weights, this.k := w, k;
      preprocessor, calculator := p, c;
      evaluationResults := [];
    }

    /**
     * `ModelEvaluator(weights, k)`: no weights select the configured
     * defaults, and the calculator is built from them. The calculator
     * sanitises the very dictionary the evaluator keeps, so the evaluator's
     * weights are the sanitised ones too.
     */
    static method Create(w: Weights, k: int, sqrt: real -> real) returns (r: Result<ModelEvaluator>)
      requires IsSqrt(sqrt) && DistinctKeys(w)
      ensures var chosen := if w == [] then Config.DEFAULT_WEIGHTS else w;
        && (r.Ok? <==> Normalized(Sanitized(chosen)).Ok?)
        && (r.Ok? ==>
              && fresh(r.value) && r.value.Valid() && r.value.weights == Sanitized(chosen) && r.value.k == k
              && r.value.evaluationResults == [] && !r.value.preprocessor.isFitted
              && r.value.calculator.weights == Sanitized(chosen) && r.value.calculator.Consistent())
    {
      var chosen := if w == [] then Config.DEFAULT_WEIGHTS else w;
      Config.DefaultWeightsWellFormed();
      var p := new Preprocessing.Preprocessor();
      var c := Calculator.Create(chosen, sqrt);
      if c.Err? {
        return Err(c.error);
      }
      var e := new ModelEvaluator.Init(c.value.weights, k, p, c.value);
      r := Ok(e);
    }

    /**
     * `extract_features(row, normalized_df, idx)`: reads the normalised row
     * at `idx` (the first row for a position the frame lacks) and fills in
     * the features one entry of the feature map at a time.
     */
    method ExtractFeatures(normalizedDf: Frame, idx: int) returns (r: Result<map<string, real>>)
      ensures r == IndexedFeatures(normalizedDf, idx)
    {
      var normRow := NormRow(normalizedDf, idx);
      if normRow.Err? {
        return Err(normRow.error);
      }
      var row, columns := normRow.value, normalizedDf.columns;
      var features: map<string, real> := map[];
      for n := 0 to |FEATURE_MAP|
        invariant Features(FEATURE_MAP[..n], columns, row) == Ok(features)
      {
        var entry := FEATURE_MAP[n];
        FeaturesExtend(FEATURE_MAP, columns, row, n, features);
        var source := FeatureSource(columns, entry);
        if source.Some? {
          var x := FeatureCell(Get(row, source.value, NaN));
          if x.Err? {
            FeaturesFailurePersists(FEATURE_MAP, columns, row, n + 1);
            return Err(x.error);
          }
          features := features[entry.0 := x.value];
        }
      }
      assert FEATURE_MAP[..|FEATURE_MAP|] == FEATURE_MAP;
      r := Ok(features);
    }

    /** One iteration of the `predict_label` loop: the training phone at `idx` scored against the query. */
    method ScoreNeighbour(query: map<string, real>, train: Frame, trainNorm: Frame, idx: nat) returns (r: Result<Neighbour>)
      requires Valid()
      ensures r == NeighbourAt(calculator.normalizedWeights, calculator.sqrt, query, train, trainNorm, idx)
    {
      var features := ExtractFeatures(trainNorm, idx);
      if features.Err? {
        return Err(features.error);
      }
      var similarity := calculator.SimilarityOf(query, features.value);
      var known := LabelOf(train, idx);
      if known.Err? {
        return Err(known.error);
      }
      r := Ok(Neighbour(idx, similarity, known.value));
    }

    /**
     * `predict_label`: scores every training phone against the query,
     * sorts them by similarity and takes the vote of the first `k`.
     */
    method PredictLabel(query: map<string, real>, train: Frame, trainNorm: Frame) returns (r: Result<Value>)
      requires Valid()
      ensures r == PredictedLabel(calculator.normalizedWeights, calculator.sqrt, k, query, train, trainNorm)
    {
      var w, sqrt := calculator.normalizedWeights, calculator.sqrt;
      ghost var step := NeighbourStep(w, sqrt, query, train, trainNorm);
      var similarities: seq<Neighbour> := [];
      for idx := 0 to |train.rows|
        invariant Mapped(idx, step) == Ok(similarities)
      {
        var next := ScoreNeighbour(query, train, trainNorm, idx);
        assert step(idx) == next;
        MappedStep(idx, step, similarities);
        if next.Err? {
          MappedFailurePersists(idx + 1, |train.rows|, step);
          return Err(next.error);
        }
        similarities := similarities + [next.value];
      }
      var topK := Take(Sort(similarities, Closer), k);
      r := Vote(Labels(topK));
    }

    /** One iteration of the evaluation loop: the actual and the predicted label of test phone `idx`. */
    method ClassifyOne(train: Frame, trainNorm: Frame, test: Frame, testNorm: Frame, idx: nat) returns (r: Result<(Value, Value)>)
      requires Valid()
      ensures r == ClassifiedAt(calculator.normalizedWeights, calculator.sqrt, k, train, trainNorm, test, testNorm, idx)
    {
      var query := ExtractFeatures(testNorm, idx);
      if query.Err? {
        return Err(query.error);
      }
      var predicted := PredictLabel(query.value, train, trainNorm);
      if predicted.Err? {
        return Err(predicted.error);
      }
      var actual := LabelOf(test, idx);
      if actual.Err? {
        return Err(actual.error);
      }
      r := Ok((actual.value, predicted.value));
    }

    /** The evaluation loop: `y_true` and `y_pred`, one entry per test phone. */
    method Classify(train: Frame, trainNorm: Frame, test: Frame, testNorm: Frame) returns (r: Result<(seq<Value>, seq<Value>)>)
      requires Valid()
      ensures var c := Classified(calculator.normalizedWeights, calculator.sqrt, k, train, trainNorm, test, testNorm);
        && (r.Err? <==> c.Err?) && (r.Err? ==> r.error == c.error)
        && (r.Ok? ==> r.value == (Firsts(c.value), Seconds(c.value)))
    {
      var w, sqrt := calculator.normalizedWeights, calculator.sqrt;
      ghost var step := ClassifyStep(w, sqrt, k, train, trainNorm, test, testNorm);
      ghost var pairs: seq<(Value, Value)> := [];
      var yTrue: seq<Value> := [];
      var yPred: seq<Value> := [];
      for idx := 0 to |test.rows|
        invariant Mapped(idx, step) == Ok(pairs)
        invariant yTrue == Firsts(pairs) && yPred == Seconds(pairs)
      {
        var next := ClassifyOne(train, trainNorm, test, testNorm, idx);
        assert step(idx) == next;
        MappedStep(idx, step, pairs);
        if next.Err? {
          MappedFailurePersists(idx + 1, |test.rows|, step);
          return Err(next.error);
        }
        var y := next.value;
        PairsAppend(pairs, y);
        pairs := pairs + [y];
        yTrue := yTrue + [y.0];
        yPred := yPred + [y.1];
      }
      r := Ok((yTrue, yPred));
    }

    /** The preprocessor's numeric ranges are those of the training set `df`. */
    ghost predicate FittedOn(df: Frame)
      reads preprocessor
    {
      forall c :: c in Preprocessing.NUMERIC_COLUMNS && c in Preprocessing.PreparedColumns(df.columns) ==>
        && c in preprocessor.minValues && c in preprocessor.maxValues
        && preprocessor.minValues[c] == Preprocessing.ColumnMin(Preprocessing.PreparedColumn(df, c))
        && preprocessor.maxValues[c] == Preprocessing.ColumnMax(Preprocessing.PreparedColumn(df, c))
    }

    /** Every test phone can be classified against the training set, on the frames `transform` makes of them. */
    ghost predicate Classifies(train: Frame, test: Frame)
      requires Valid()
      reads this, preprocessor, calculator
    {
      exists trainNorm: Frame, testNorm: Frame ::
        && preprocessor.IsTransformOf(train, trainNorm) && preprocessor.IsTransformOf(test, testNorm)
        && Classified(calculator.normalizedWeights, calculator.sqrt, k, train, trainNorm, test, testNorm).Ok?
    }

    /** Fits the preprocessor on the training set, then normalises both sets with it. */
    method FitTransform(train: Frame, test: Frame) returns (trainNorm: Frame, testNorm: Frame)
      requires Valid()
      modifies preprocessor
      ensures Valid() && preprocessor.isFitted
      ensures FittedOn(train)
      ensures var cols := Preprocessing.PreparedColumns(train.columns);
        && (forall c :: c in preprocessor.minValues <==> c in old(preprocessor.minValues) || (c in Preprocessing.NUMERIC_COLUMNS && c in cols))
        && (forall c :: c in old(preprocessor.minValues) && !(c in Preprocessing.NUMERIC_COLUMNS && c in cols) ==>
              preprocessor.minValues[c] == old(preprocessor.minValues[c]) && preprocessor.maxValues[c] == old(preprocessor.maxValues[c]))
        && preprocessor.brandEncoding == (if "Brand" in cols then Preprocessing.Encoding(Preprocessing.PreparedColumn(train, "Brand")) else old(preprocessor.brandEncoding))
        && preprocessor.osEncoding == (if "Os" in cols then Preprocessing.Encoding(Preprocessing.PreparedColumn(train, "Os")) else old(preprocessor.osEncoding))
      ensures preprocessor.IsTransformOf(train, trainNorm) && preprocessor.IsTransformOf(test, testNorm)
    {
      preprocessor.Fit(train);
      var t := preprocessor.Transform(train);
      var u := preprocessor.Transform(test);
      trainNorm, testNorm := t.value, u.value;
    }

    /**
     * `evaluate_scenario`: loads the scenario's files (`files` is what
     * reading them gives), fits the preprocessor on the training set,
     * classifies every test phone and appends the scored result. An empty
     * test set cannot be scored.
     */
    method EvaluateScenario(trainPercent: int, files: Result<(Frame, Frame)>) returns (r: Result<EvaluationResult>)
      requires Valid()
      modifies this, preprocessor
      ensures Valid()
      ensures files.Err? ==> r.Err?
      ensures r.Err? ==> evaluationResults == old(evaluationResults)
      ensures files.Ok? && |files.value.1.rows| > 0 && Classifies(files.value.0, files.value.1) ==> r.Ok?
      ensures r.Ok? ==>
        && evaluationResults == old(evaluationResults) + [r.value]
        && files.Ok? && preprocessor.isFitted
        && r.value.scenarioName == ScenarioName(trainPercent)
        && r.value.trainSize == |files.value.0.rows| && r.value.testSize == |files.value.1.rows|
        && r.value.trainPercentage == trainPercent as real && r.value.testPercentage == (100 - trainPercent) as real
        && r.value.weightsUsed == weights
        && InRange(r.value)
        && FittedOn(files.value.0)
        && exists trainNorm: Frame, testNorm: Frame, ps: seq<(Value, Value)> ::
             && preprocessor.IsTransformOf(files.value.0, trainNorm) && preprocessor.IsTransformOf(files.value.1, testNorm)
             && Classified(calculator.normalizedWeights, calculator.sqrt, k, files.value.0, trainNorm, files.value.1, testNorm) == Ok(ps)
             && |ps| == |files.value.1.rows| > 0
             && (forall i :: 0 <= i < |ps| ==> LabelOf(files.value.1, i) == Ok(ps[i].0))
             && r.value.metrics == MetricsOf(ScoresOf(Firsts(ps), Seconds(ps)))
             && r.value.confusionMatrix == MatrixDataOf(ConfusionMatrix(Firsts(ps), Seconds(ps)))
    {
      var name := ScenarioName(trainPercent);
      if files.Err? {
        return Err(files.error);
      }
      var (train, test) := files.value;
      var trainNorm, testNorm := FitTransform(train, test);
      var ys := Classify(train, trainNorm, test, testNorm);
      if ys.Err? {
        forall tn: Frame, sn: Frame | preprocessor.IsTransformOf(train, tn) && preprocessor.IsTransformOf(test, sn)
          ensures Classified(calculator.normalizedWeights, calculator.sqrt, k, train, tn, test, sn).Err?
        {
          preprocessor.TransformsAgree(train, trainNorm, tn);
          preprocessor.TransformsAgree(test, testNorm, sn);
          ClassifiedOfSameCells(calculator.normalizedWeights, calculator.sqrt, k, train, trainNorm, tn, test, testNorm, sn);
        }
        assert !Classifies(train, test);
        return Err(ys.error);
      }
      var (yTrue, yPred) := ys.value;
      ClassifiedLabels(calculator.normalizedWeights, calculator.sqrt, k, train, trainNorm, test, testNorm);
      if |yTrue| == 0 {
        return Err("no test samples to score");
      }
      ghost var ps := Classified(calculator.normalizedWeights, calculator.sqrt, k, train, trainNorm, test, testNorm).value;
      var metrics := MetricsOf(ScoresOf(yTrue, yPred));
      MetricsBounds(yTrue, yPred);
      var cm := ConfusionMatrix(yTrue, yPred);
      var result := EvaluationResult(name, |train.rows|, |test.rows|, trainPercent as real, (100 - trainPercent) as real,
                                     metrics, MatrixDataOf(cm), weights);
      evaluationResults := evaluationResults + [result];
      r := Ok(result);
    }

    /**
     * `evaluate_all_scenarios`: forgets earlier results, evaluates every
     * scenario (70/30 when none are given) reading its files through
     * `files`, and reports the first scenario of highest F1.
     */
    method EvaluateAll(scenarios: Option<seq<int>>, files: string -> Result<(Frame, Frame)>) returns (r: Result<Comparison>)
      requires Valid()
      modifies this, preprocessor
      ensures Valid()
      ensures var ps := if scenarios.None? then [70] else scenarios.value;
        r.Ok? ==>
          && |evaluationResults| == |ps| > 0
          && Names(evaluationResults) == ScenarioNames(ps)
          && r.value.scenarios == evaluationResults
          && Best(evaluationResults).Ok? && r.value.bestScenario == Best(evaluationResults).value.scenarioName
          && r.value.comparisonSummary == SummaryOf(evaluationResults)
    {
      var ps := if scenarios.None? then [70] else scenarios.value;
      evaluationResults := [];
      for i := 0 to |ps|
        invariant Valid()
        invariant |evaluationResults| == i
        invariant Names(evaluationResults) == ScenarioNames(ps[..i])
      {
        ghost var before := evaluationResults;
        var result := EvaluateScenario(ps[i], files(ScenarioName(ps[i])));
        if result.Err? {
          return Err(result.error);
        }
        MapSeqAppend(before, result.value, NameOf);
        MapSeqPrefix(ps, i, ScenarioName);
      }
      assert ps[..|ps|] == ps;
      var best := Best(evaluationResults);
      if best.Err? {
        return Err(best.error);
      }
      r := Ok(Comparison(evaluationResults, best.value.scenarioName, SummaryOf(evaluationResults)));
    }
  }
}
