/**
 * Weighted Euclidean distance between a query and a case, both given as
 * maps from attribute name to a value already scaled to [0, 1]:
 *   d = sqrt(sum over weighted attributes a present in the query of w_a * (q_a - c_a)^2)
 * and similarity = 1 / (1 + d). Weights are percentages; zero weights are
 * replaced by 0.01 and the weights are divided by their total.
 *
 * A real square root cannot be computed in Dafny, so the calculator holds a
 * function `sqrt` that is only required to be the non-negative square root.
 */
module WeightedEuclidean {
  import opened Wrappers
  import opened Sorting

  /** A Python dict from attribute to weight, in insertion order. */
  type Weights = seq<(string, real)>

  ghost predicate DistinctKeys(w: Weights)
  {
    forall i, j :: 0 <= i < j < |w| ==> w[i].0 != w[j].0
  }

  /** `sum(weights.values())`. */
  function Total(w: Weights): real
  {
    if w == [] then 0.0 else Total(w[..|w| - 1]) + w[|w| - 1].1
  }

  /** `weights.get(k, default)`. */
  function WeightOf(w: Weights, k: string, default: real): real
  {
    if w == [] then default
    else if w[|w| - 1].0 == k then w[|w| - 1].1
    else WeightOf(w[..|w| - 1], k, default)
  }

  /** The attributes the calculator scores by default. */
  const DEFAULT_ATTRIBUTES: seq<string> :=
    ["Harga", "Ram", "Memori_internal", "Ukuran_layar", "Kapasitas_baterai", "Resolusi_kamera_num", "Rating_pengguna"]

  /** The calculator's own default weights, used when it is given none. */
  function DefaultWeights(): Weights
  {
    [("Harga", 25.0), ("Ram", 15.0), ("Memori_internal", 10.0), ("Kapasitas_baterai", 15.0),
     ("Resolusi_kamera_num", 15.0), ("Ukuran_layar", 5.0), ("Rating_pengguna", 15.0)]
  }

  /** The weight a zero weight is replaced with. */
  const MIN_WEIGHT: real := 0.01

  /** Weights after `_validate_weights`: every zero replaced by 0.01, the rest as they were. */
  function Sanitized(w: Weights): (r: Weights)
    ensures |r| == |w|
    ensures forall i :: 0 <= i < |w| ==> r[i].0 == w[i].0 && r[i].1 != 0.0
    ensures forall i :: 0 <= i < |w| ==> (w[i].1 == 0.0 ==> r[i].1 == MIN_WEIGHT) && (w[i].1 != 0.0 ==> r[i].1 == w[i].1)
  {
    seq(|w|, i requires 0 <= i < |w| => (w[i].0, if w[i].1 == 0.0 then MIN_WEIGHT else w[i].1))
  }

  /** The keys `_validate_weights` reports as zero, in order. */
  function ZeroKeys(w: Weights): (ks: seq<string>)
    ensures forall k :: k in ks <==> exists i :: 0 <= i < |w| && w[i].0 == k && w[i].1 == 0.0
  {
    if w == [] then []
    else ZeroKeys(w[..|w| - 1]) + (if w[|w| - 1].1 == 0.0 then [w[|w| - 1].0] else [])
  }

  /** The accepted range of the total; outside it `_validate_weights` only warns. */
  predicate InTolerance(total: real) { 99.0 <= total <= 101.0 }

  function Divided(w: Weights, t: real): (r: Weights)
    requires t != 0.0
    ensures |r| == |w| && forall i :: 0 <= i < |w| ==> r[i] == (w[i].0, w[i].1 / t)
  {
    seq(|w|, i requires 0 <= i < |w| => (w[i].0, w[i].1 / t))
  }

  /**
   * `_normalize_weights`: each weight divided by the total. The division only
   * happens for a non-empty dict, so only a non-empty dict with total 0 fails.
   */
  function Normalized(w: Weights): (r: Result<Weights>)
    ensures r.Err? <==> w != [] && Total(w) == 0.0
    ensures r.Ok? ==> |r.value| == |w|
    ensures r.Ok? ==> forall i :: 0 <= i < |w| ==> r.value[i] == (w[i].0, w[i].1 / Total(w))
  {
    if w == [] then Ok([])
    else if Total(w) == 0.0 then Err("division by zero")
    else Ok(Divided(w, Total(w)))
  }

  lemma {:induction false} TotalDivided(w: Weights, t: real)
    requires t != 0.0
    ensures Total(Divided(w, t)) == Total(w) / t
  {
    if w != [] {
      var n := |w| - 1;
      assert Divided(w, t)[..n] == Divided(w[..n], t);
      TotalDivided(w[..n], t);
      assert Total(w[..n]) / t + w[n].1 / t == (Total(w[..n]) + w[n].1) / t;
    }
  }

  /** Normalised weights are proportional to the given ones and sum to 1. */
  lemma NormalizedSumsToOne(w: Weights)
    requires Normalized(w).Ok? && w != []
    ensures Total(Normalized(w).value) == 1.0
  {
    var t := Total(w);
    assert Normalized(w).value == Divided(w, t);
    TotalDivided(w, t);
    assert t / t == 1.0;
  }

  /** Sanitising keeps keys, so it keeps them distinct. */
  lemma SanitizedKeys(w: Weights)
    ensures Firsts(Sanitized(w)) == Firsts(w)
  {
  }

  /** The square root: non-negative, and squaring it gives back a non-negative argument. */
  ghost predicate IsSqrt(sqrt: real -> real)
  {
    forall x {:trigger sqrt(x)} :: 0.0 <= sqrt(x) && (0.0 <= x ==> sqrt(x) * sqrt(x) == x)
  }

  /** The summand of one weighted attribute: nothing when the query lacks it, 0.5 for a case that lacks it. */
  function Term(attr: string, weight: real, query: map<string, real>, cse: map<string, real>): real
  {
    if attr in query then
      var c := if attr in cse then cse[attr] else 0.5;
      weight * (query[attr] - c) * (query[attr] - c)
    else 0.0
  }

  /** The weighted sum of squared differences under the square root. */
  function SquaredDistance(w: Weights, query: map<string, real>, cse: map<string, real>): real
  {
    if w == [] then 0.0
    else SquaredDistance(w[..|w| - 1], query, cse) + Term(w[|w| - 1].0, w[|w| - 1].1, query, cse)
  }

  /** `1 / (1 + d)`. */
  function Similarity(d: real): real
    requires 0.0 <= d
  {
    1.0 / (1.0 + d)
  }

  /** Similarity lies in (0, 1] and is 1 exactly at distance 0. */
  lemma SimilarityRange(d: real)
    requires 0.0 <= d
    ensures 0.0 < Similarity(d) <= 1.0
    ensures Similarity(d) == 1.0 <==> d == 0.0
  {
  }

  /** Similarity strictly decreases as the distance grows. */
  lemma SimilarityDecreasing(d1: real, d2: real)
    requires 0.0 <= d1 < d2
    ensures Similarity(d1) > Similarity(d2)
  {
    assert 1.0 + d1 < 1.0 + d2;
  }

  /** The square root preserves order, so similarities can be compared on squared distances. */
  lemma SqrtMonotone(sqrt: real -> real, x: real, y: real)
    requires IsSqrt(sqrt) && 0.0 <= x < y
    ensures sqrt(x) < sqrt(y)
  {
    var a, b := sqrt(x), sqrt(y);
    assert a * a == x && b * b == y;
  }

  /** With non-negative weights, the squared distance is non-negative. */
  lemma {:induction false} SquaredDistanceNonNegative(w: Weights, query: map<string, real>, cse: map<string, real>)
    requires forall i :: 0 <= i < |w| ==> 0.0 <= w[i].1
    ensures 0.0 <= SquaredDistance(w, query, cse)
  {
    if w != [] {
      var n := |w| - 1;
      SquaredDistanceNonNegative(w[..n], query, cse);
      var a := w[n].0;
      if a in query {
        var c := if a in cse then cse[a] else 0.5;
        var e := query[a] - c;
        assert 0.0 <= w[n].1 * e * e by { assert 0.0 <= e * e; }
      }
    }
  }

  /** The case value the distance uses for an attribute. */
  function CaseValue(attr: string, cse: map<string, real>): real
  {
    if attr in cse then cse[attr] else 0.5
  }

  /** The squared distance is 0 when the case matches the query on every weighted attribute the query has. */
  lemma {:induction false} SquaredDistanceZeroWhenAgree(w: Weights, query: map<string, real>, cse: map<string, real>)
    requires forall i :: 0 <= i < |w| && w[i].0 in query ==> query[w[i].0] == CaseValue(w[i].0, cse)
    ensures SquaredDistance(w, query, cse) == 0.0
  {
    if w != [] { SquaredDistanceZeroWhenAgree(w[..|w| - 1], query, cse); }
  }

  /** An attribute missing from the query contributes nothing: the case may hold anything there. */
  lemma {:induction false} AbsentQueryAttributeIgnored(w: Weights, query: map<string, real>, cse: map<string, real>, a: string, v: real)
    requires a !in query
    ensures SquaredDistance(w, query, cse) == SquaredDistance(w, query, cse[a := v])
  {
    if w != [] { AbsentQueryAttributeIgnored(w[..|w| - 1], query, cse, a, v); }
  }

  /** An attribute without a weight never enters the distance, whatever query and case hold there. */
  lemma {:induction false} UnweightedAttributeIgnored(w: Weights, query: map<string, real>, cse: map<string, real>,
                                                      a: string, u: real, v: real)
    requires a !in Firsts(w)
    ensures SquaredDistance(w, query[a := u], cse[a := v]) == SquaredDistance(w, query, cse)
  {
    if w != [] {
      assert Firsts(w[..|w| - 1]) == Firsts(w)[..|w| - 1];
      UnweightedAttributeIgnored(w[..|w| - 1], query, cse, a, u, v);
    }
  }

  /** A case that lacks an attribute is scored as if it held 0.5 there. */
  lemma {:induction false} AbsentCaseAttributeIsHalf(w: Weights, query: map<string, real>, cse: map<string, real>, a: string)
    requires a !in cse
    ensures SquaredDistance(w, query, cse) == SquaredDistance(w, query, cse[a := 0.5])
  {
    if w != [] { AbsentCaseAttributeIsHalf(w[..|w| - 1], query, cse, a); }
  }

  /** Which of the five `_get_match_quality` bands a similarity falls in, 0 the best. */
  function QualityBand(similarity: real): (b: nat)
    ensures b < 5
  {
    if similarity >= 0.9 then 0
    else if similarity >= 0.7 then 1
    else if similarity >= 0.5 then 2
    else if similarity >= 0.3 then 3
    else 4
  }

  const QUALITY_NAMES: seq<string> := ["Sangat Cocok", "Cocok", "Cukup Cocok", "Kurang Cocok", "Tidak Cocok"]

  /** `_get_match_quality`. */
  function MatchQuality(similarity: real): string
  {
    QUALITY_NAMES[QualityBand(similarity)]
  }

  /** A higher similarity never gets a worse band; the cut-offs are 0.9, 0.7, 0.5 and 0.3. */
  lemma QualityBandMonotone(s1: real, s2: real)
    requires s1 <= s2
    ensures QualityBand(s2) <= QualityBand(s1)
    ensures MatchQuality(s2) == MatchQuality(s1) <==> QualityBand(s2) == QualityBand(s1)
  {
  }

  lemma QualityBandCutoffs(s: real)
    ensures QualityBand(s) == 0 <==> s >= 0.9
    ensures QualityBand(s) <= 1 <==> s >= 0.7
    ensures QualityBand(s) <= 2 <==> s >= 0.5
    ensures QualityBand(s) <= 3 <==> s >= 0.3
  {
  }

  function Abs(x: real): real { if x < 0.0 then -x else x }

  /** One entry of `get_attribute_contributions`. */
  datatype Contribution = Contribution(
    queryValue: real, caseValue: real, difference: real, attributeSimilarity: real,
    weightPercentage: real, weightedContribution: real, matchQuality: string)

  /** The entry for one attribute; both values default to 0.5. */
  function ContributionOf(attr: string, weight: real, percentages: Weights,
                          query: map<string, real>, cse: map<string, real>): (c: Contribution)
    ensures c.attributeSimilarity == 1.0 - c.difference
    ensures c.difference == Abs(c.queryValue - c.caseValue)
    ensures c.queryValue == (if attr in query then query[attr] else 0.5)
    ensures c.caseValue == CaseValue(attr, cse)
    ensures c.weightedContribution == weight * c.attributeSimilarity * 100.0
    ensures c.weightPercentage == WeightOf(percentages, attr, 0.0)
    ensures c.matchQuality == MatchQuality(c.attributeSimilarity)
  {
    var q := if attr in query then query[attr] else 0.5;
    var v := CaseValue(attr, cse);
    var diff := Abs(q - v);
    Contribution(q, v, diff, 1.0 - diff, WeightOf(percentages, attr, 0.0), weight * (1.0 - diff) * 100.0,
                 MatchQuality(1.0 - diff))
  }

  /** The (index, similarity) pair of each case, in case order. */
  function Scores(w: Weights, sqrt: real -> real, query: map<string, real>, cases: seq<map<string, real>>)
    : (r: seq<(nat, real)>)
    requires IsSqrt(sqrt)
    ensures |r| == |cases|
    ensures forall k :: 0 <= k < |cases| ==> r[k] == (k, Similarity(sqrt(SquaredDistance(w, query, cases[k]))))
  {
    seq(|cases|, k requires 0 <= k < |cases| => (k, Similarity(sqrt(SquaredDistance(w, query, cases[k])))))
  }

  lemma ScoresAppend(w: Weights, sqrt: real -> real, query: map<string, real>, cases: seq<map<string, real>>, i: nat)
    requires IsSqrt(sqrt) && i < |cases|
    ensures Scores(w, sqrt, query, cases[..i + 1])
      == Scores(w, sqrt, query, cases[..i]) + [(i, Similarity(sqrt(SquaredDistance(w, query, cases[i]))))]
  {
  }

  /**
   * Ranking the scores puts every case exactly once in descending order of
   * similarity, and cases with equal similarity in the order they were given.
   */
  lemma RankedByScore(w: Weights, sqrt: real -> real, query: map<string, real>, cases: seq<map<string, real>>)
    requires IsSqrt(sqrt)
    ensures var s := Scores(w, sqrt, query, cases); var r := Sort(s, ByScoreDesc);
      && multiset(r) == multiset(s)
      && (forall a, b :: 0 <= a < b < |r| ==> r[a].1 >= r[b].1)
      && (forall a, b :: 0 <= a < b < |r| && r[a].1 == r[b].1 ==> r[a].0 < r[b].0)
      && (forall k :: 0 <= k < |r| ==> r[k].0 < |cases| && r[k] == s[r[k].0])
  {
    var s := Scores(w, sqrt, query, cases);
    var r := Sort(s, ByScoreDesc);
    ByScoreDescIsPreorder();
    SortSorted(s, ByScoreDesc);
    assert Increasing(s, (p: (nat, real)) => p.0 as int);
    SortTiesInOrder(s, ByScoreDesc, (p: (nat, real)) => p.0 as int);
    forall k | 0 <= k < |r| ensures r[k].0 < |cases| && r[k] == s[r[k].0] {
      assert r[k] in multiset(s);
    }
  }

  /** Per-attribute similarity lies in [0, 1] for values in [0, 1], and is 1 exactly when they agree. */
  lemma ContributionBounds(attr: string, weight: real, percentages: Weights,
                           query: map<string, real>, cse: map<string, real>)
    requires attr in query && 0.0 <= query[attr] <= 1.0
    requires 0.0 <= CaseValue(attr, cse) <= 1.0
    ensures var c := ContributionOf(attr, weight, percentages, query, cse);
      && 0.0 <= c.attributeSimilarity <= 1.0
      && (c.attributeSimilarity == 1.0 <==> query[attr] == CaseValue(attr, cse))
      && (0.0 <= weight ==> 0.0 <= c.weightedContribution <= weight * 100.0)
  {
    var c := ContributionOf(attr, weight, percentages, query, cse);
    if 0.0 <= weight {
      assert weight * c.attributeSimilarity <= weight * 1.0;
    }
  }

  /** `le` for `sort(key=lambda x: x[1], reverse=True)` on (index, similarity) pairs. */
  predicate ByScoreDesc(a: (nat, real), b: (nat, real)) { a.1 >= b.1 }

  lemma ByScoreDescIsPreorder()
    ensures TotalPreorder(ByScoreDesc)
  {
  }

  class Calculator {
    /** Weights in percent, after sanitising. */
    var weights: Weights
    /** Weights divided by their total; these drive the distance. */
    var normalizedWeights: Weights
    const sqrt: real -> real

    ghost predicate Valid()
      reads this
    {
      IsSqrt(sqrt) && DistinctKeys(weights) && DistinctKeys(normalizedWeights)
    }

    /** The normalised weights belong to the current weights (false after a failed `SetWeights`). */
    ghost predicate Consistent()
      reads this
    {
      Normalized(weights) == Ok(normalizedWeights)
    }

    constructor Init(w: Weights, sqrt: real -> real)
      requires IsSqrt(sqrt) && DistinctKeys(w)
      ensures Valid() && weights == w && normalizedWeights == [] && this.sqrt == sqrt
    {
      weights := w;
      normalizedWeights := [];
      this.sqrt := sqrt;
    }

    /**
     * `WeightedEuclideanDistance(weights)`: falls back to the default weights
     * for none or an empty dict, sanitises them, and fails where normalising
     * would divide by zero.
     */
    static method Create(w: Weights, sqrt: real -> real) returns (r: Result<Calculator>)
      requires IsSqrt(sqrt) && DistinctKeys(w)
      ensures var chosen := if w == [] then DefaultWeights() else w;
        && (r.Ok? <==> Normalized(Sanitized(chosen)).Ok?)
        && (r.Ok? ==>
              fresh(r.value) && r.value.Valid() && r.value.Consistent()
              && r.value.weights == Sanitized(chosen) && r.value.sqrt == sqrt)
    {
      var chosen := if w == [] then DefaultWeights() else w;
      var c := new Calculator.Init(chosen, sqrt);
      var _, _ := c.ValidateWeights();
      var n := Normalized(c.weights);
      if n.Ok? {
        c.normalizedWeights := n.value;
        r := Ok(c);
      } else {
        r := Err(n.error);
      }
    }

    /**
     * `_validate_weights`: reports whether the total is outside [99, 101]
     * and which keys are zero, and replaces each zero by 0.01. It never rejects.
     */
    method ValidateWeights() returns (outOfTolerance: bool, zeros: seq<string>)
      requires Valid()
      modifies this`weights
      ensures Valid()
      ensures weights == Sanitized(old(weights))
      ensures outOfTolerance == !InTolerance(Total(old(weights)))
      ensures zeros == ZeroKeys(old(weights))
    {
      outOfTolerance := !InTolerance(Total(weights));
      zeros := ZeroKeys(weights);
      ghost var w0 := weights;
      var j := 0;
      while j < |zeros|
        invariant 0 <= j <= |zeros|
        invariant |weights| == |w0|
        invariant forall i :: 0 <= i < |w0| ==> weights[i].0 == w0[i].0
        invariant forall i :: 0 <= i < |w0| ==>
          weights[i].1 == if w0[i].1 == 0.0 && w0[i].0 in zeros[..j] then MIN_WEIGHT else w0[i].1
      {
        forall i | 0 <= i < |w0| && w0[i].0 == zeros[j] ensures w0[i].1 == 0.0 {
          assert zeros[j] in zeros;
          var p :| 0 <= p < |w0| && w0[p].0 == zeros[j] && w0[p].1 == 0.0;
          assert p == i;
        }
        assert zeros[..j + 1] == zeros[..j] + [zeros[j]];
        weights := SetWeight(weights, zeros[j], MIN_WEIGHT);
        j := j + 1;
      }
      assert zeros[..j] == zeros;
    }

    /** `get_weights_percentage`: a copy of the percentage weights. */
    method WeightsPercentage() returns (r: Weights)
      ensures r == weights
    {
      r := weights;
    }

    /** `set_weights`: the new weights are stored and sanitised before normalising can fail. */
    method SetWeights(w: Weights) returns (r: Result<()>)
      requires Valid() && DistinctKeys(w)
      modifies this
      ensures Valid()
      ensures weights == Sanitized(w)
      ensures r.Ok? <==> Normalized(Sanitized(w)).Ok?
      ensures r.Ok? ==> Consistent()
      ensures r.Err? ==> normalizedWeights == old(normalizedWeights)
    {
      weights := w;
      var _, _ := ValidateWeights();
      var n := Normalized(weights);
      if n.Ok? {
        normalizedWeights := n.value;
        r := Ok(());
      } else {
        r := Err(n.error);
      }
    }

    /** `calculate_distance`: the square root of the weighted squared differences. */
    method Distance(query: map<string, real>, cse: map<string, real>) returns (d: real)
      requires Valid()
      ensures d == sqrt(SquaredDistance(normalizedWeights, query, cse))
      ensures 0.0 <= d
    {
      var sum := 0.0;
      var i := 0;
      while i < |normalizedWeights|
        invariant 0 <= i <= |normalizedWeights|
        invariant sum == SquaredDistance(normalizedWeights[..i], query, cse)
      {
        var (attr, weight) := normalizedWeights[i];
        assert normalizedWeights[..i + 1][..i] == normalizedWeights[..i];
        if attr in query {
          var c := if attr in cse then cse[attr] else 0.5;
          var diff := query[attr] - c;
          sum := sum + weight * diff * diff;
        }
        i := i + 1;
      }
      assert normalizedWeights[..i] == normalizedWeights;
      d := sqrt(sum);
    }

    /** `calculate_similarity`: `1 / (1 + distance)`, in (0, 1]. */
    method SimilarityOf(query: map<string, real>, cse: map<string, real>) returns (s: real)
      requires Valid()
      ensures s == Similarity(sqrt(SquaredDistance(normalizedWeights, query, cse)))
      ensures 0.0 < s <= 1.0
    {
      var d := Distance(query, cse);
      s := 1.0 / (1.0 + d);
      SimilarityRange(d);
    }

    /**
     * `calculate_similarity_batch`: the (index, similarity) pairs of all
     * cases, stably sorted by similarity, highest first.
     */
    method SimilarityBatch(query: map<string, real>, cases: seq<map<string, real>>) returns (r: seq<(nat, real)>)
      requires Valid()
      ensures r == Sort(Scores(normalizedWeights, sqrt, query, cases), ByScoreDesc)
      ensures |r| == |cases|
      ensures forall a, b :: 0 <= a < b < |r| ==> r[a].1 >= r[b].1
      ensures forall a, b :: 0 <= a < b < |r| && r[a].1 == r[b].1 ==> r[a].0 < r[b].0
    {
      var results: seq<(nat, real)> := [];
      var i := 0;
      while i < |cases|
        invariant 0 <= i <= |cases|
        invariant results == Scores(normalizedWeights, sqrt, query, cases[..i])
      {
        var sim := SimilarityOf(query, cases[i]);
        ScoresAppend(normalizedWeights, sqrt, query, cases, i);
        results := results + [(i, sim)];
        i := i + 1;
      }
      assert cases[..i] == cases;
      r := Sort(results, ByScoreDesc);
      RankedByScore(normalizedWeights, sqrt, query, cases);
    }

    /**
     * `get_attribute_contributions`: one entry per weighted attribute, in the
     * order of the weights, including attributes the query does not have.
     */
    method AttributeContributions(query: map<string, real>, cse: map<string, real>)
      returns (r: seq<(string, Contribution)>)
      requires Valid()
      ensures |r| == |normalizedWeights|
      ensures forall i :: 0 <= i < |r| ==>
        r[i].0 == normalizedWeights[i].0 && r[i].1 == ContributionOf(normalizedWeights[i].0, normalizedWeights[i].1, weights, query, cse)
    {
      r := [];
      var i := 0;
      while i < |normalizedWeights|
        invariant 0 <= i <= |normalizedWeights|
        invariant |r| == i
        invariant forall k :: 0 <= k < i ==>
          r[k].0 == normalizedWeights[k].0 && r[k].1 == ContributionOf(normalizedWeights[k].0, normalizedWeights[k].1, weights, query, cse)
      {
        var (attr, weight) := normalizedWeights[i];
        var q := if attr in query then query[attr] else 0.5;
        var c := if attr in cse then cse[attr] else 0.5;
        var diff := Abs(q - c);
        var attrSimilarity := 1.0 - diff;
        var entry := Contribution(q, c, diff, attrSimilarity, WeightOf(weights, attr, 0.0),
                                  weight * attrSimilarity * 100.0, MatchQuality(attrSimilarity));
        assert entry == ContributionOf(attr, weight, weights, query, cse);
        r := r + [(attr, entry)];
        i := i + 1;
      }
    }
  }

  /** `weights[k] = v` on an ordered dict. */
  function SetWeight(w: Weights, k: string, v: real): (r: Weights)
    ensures |r| == |w|
    ensures forall i :: 0 <= i < |w| ==> r[i] == if w[i].0 == k then (k, v) else w[i]
  {
    seq(|w|, i requires 0 <= i < |w| => if w[i].0 == k then (k, v) else w[i])
  }

  /** `calculate_weighted_euclidean`: the distance under a calculator built from `w`. */
  method DistanceWith(query: map<string, real>, cse: map<string, real>, w: Weights, sqrt: real -> real)
    returns (r: Result<real>)
    requires IsSqrt(sqrt) && DistinctKeys(w)
    ensures var n := Normalized(Sanitized(if w == [] then DefaultWeights() else w));
      && (r.Ok? <==> n.Ok?)
      && (r.Ok? ==> r.value == sqrt(SquaredDistance(n.value, query, cse)))
  {
    var c := Calculator.Create(w, sqrt);
    if c.Err? {
      return Err(c.error);
    }
    var d := c.value.Distance(query, cse);
    r := Ok(d);
  }

  /** The module-level `calculate_similarity`: the similarity under a calculator built from `w`. */
  method SimilarityWith(query: map<string, real>, cse: map<string, real>, w: Weights, sqrt: real -> real)
    returns (r: Result<real>)
    requires IsSqrt(sqrt) && DistinctKeys(w)
    ensures var n := Normalized(Sanitized(if w == [] then DefaultWeights() else w));
      && (r.Ok? <==> n.Ok?)
      && (r.Ok? ==> r.value == Similarity(sqrt(SquaredDistance(n.value, query, cse))) && 0.0 < r.value <= 1.0)
  {
    var c := Calculator.Create(w, sqrt);
    if c.Err? {
      return Err(c.error);
    }
    var s := c.value.SimilarityOf(query, cse);
    r := Ok(s);
  }
}
