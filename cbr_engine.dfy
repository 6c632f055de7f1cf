/**
 * The case-based reasoning cycle of the recommender.
 *
 * RETRIEVE scores every normalised catalog row against the normalised query,
 * keeps those at or above the threshold, sorts them by similarity (stably,
 * highest first) and keeps the first `top_k`. REUSE turns each hit into a
 * ranked recommendation with per-attribute explanations and highlights.
 * REVISE drops out-of-stock phones on request, boosts preferred brands and
 * operating systems, and re-sorts and re-ranks. RETAIN checks the
 * required fields, appends the case through the data loader and reloads.
 *
 * Brand and OS never enter the distance; they act only through REVISE
 * boosts and highlights. The `max_harga` preference is a soft target: it
 * becomes the query's price, not a filter.
 */
module CbrEngine {
  import opened Wrappers
  import opened Sorting
  import opened Numbers
  import opened Text
  import opened Values
  import opened WeightedEuclidean
  import Preprocessing
  import Catalog
  import Config

  // ---------------------------------------------------------------- retrieve

  /** The key table of `_prepare_query`: lower-cased user keys and the column each names. */
  const QUERY_FIELDS: seq<(string, string)> :=
    [("ram", "Ram"), ("memori_internal", "Memori_internal"), ("storage", "Memori_internal"),
     ("ukuran_layar", "Ukuran_layar"), ("screen_size", "Ukuran_layar"),
     ("kapasitas_baterai", "Kapasitas_baterai"), ("min_baterai", "Kapasitas_baterai"), ("battery", "Kapasitas_baterai"),
     ("rating", "Rating_pengguna"), ("min_rating", "Rating_pengguna"),
     ("harga", "Harga"), ("max_harga", "Harga"), ("price", "Harga"),
     ("resolusi_kamera", "Resolusi_kamera_num"), ("camera", "Resolusi_kamera_num")]

  /** The attributes whose `_norm` columns make up a case vector, in `_extract_case_vector`'s order. */
  const FEATURE_ATTRIBUTES: seq<string> :=
    ["Harga", "Ram", "Memori_internal", "Ukuran_layar", "Kapasitas_baterai", "Resolusi_kamera_num", "Rating_pengguna"]

  /** A `_norm` cell as a case-vector entry: a missing cell reads as 0.5. */
  function FeatureValue(x: Value): (r: real)
    ensures IsMissing(x) ==> r == 0.5
    ensures IsFinite(x) ==> r == AsReal(x)
  {
    if IsFinite(x) then AsReal(x) else 0.5
  }

  /**
   * The feature vector of a normalised row of a frame with columns
   * `columns`: one entry per feature attribute whose `_norm` column the
   * frame has, keyed by the attribute.
   */
  function CaseVector(columns: seq<string>, row: Row): map<string, real>
  {
    map a | a in FEATURE_ATTRIBUTES && Preprocessing.NormName(a) in columns :: FeatureValue(Get(row, Preprocessing.NormName(a), NaN))
  }

  /** The similarity of a normalised row to the query under weights `w`. */
  function CaseSimilarity(w: Weights, sqrt: real -> real, query: map<string, real>, columns: seq<string>, row: Row): (s: real)
    requires IsSqrt(sqrt)
    ensures 0.0 < s <= 1.0
  {
    SimilarityRange(sqrt(SquaredDistance(w, query, CaseVector(columns, row))));
    Similarity(sqrt(SquaredDistance(w, query, CaseVector(columns, row))))
  }

  /** A retrieved case: its position in the catalog, its original record and its similarity. */
  datatype Hit = Hit(index: nat, phone: Row, similarity: real)

  function HitIndex(h: Hit): int { h.index }

  /** `sort(key=lambda x: x[2], reverse=True)`: a hit may precede any hit that is not more similar. */
  predicate ByHitDesc(a: Hit, b: Hit) { a.similarity >= b.similarity }

  const OUT_OF_BOUNDS: string := "single positional indexer is out-of-bounds"

  /**
   * The loop of `retrieve` over the normalised rows `rows`: each row at or
   * above `minSim` contributes its position, the record at that position of
   * the original catalog `base`, and its similarity. A passing position the
   * original catalog does not have raises, as `iloc` does.
   */
  function Candidates(w: Weights, sqrt: real -> real, query: map<string, real>, columns: seq<string>,
                      rows: seq<Row>, base: seq<Row>, minSim: real): Result<seq<Hit>>
    requires IsSqrt(sqrt)
  {
    if rows == [] then Ok([])
    else
      var n := |rows| - 1;
      match Candidates(w, sqrt, query, columns, rows[..n], base, minSim)
      case Err(e) => Err(e)
      case Ok(hits) =>
        var s := CaseSimilarity(w, sqrt, query, columns, rows[n]);
        if s >= minSim then
          if n < |base| then Ok(hits + [Hit(n, base[n], s)]) else Err(OUT_OF_BOUNDS)
        else Ok(hits)
  }

  /** Position `i` passes the threshold but the original catalog has no row there. */
  predicate Dangling(w: Weights, sqrt: real -> real, query: map<string, real>, columns: seq<string>,
                     rows: seq<Row>, base: seq<Row>, minSim: real, i: int)
    requires IsSqrt(sqrt)
  {
    0 <= i < |rows| && |base| <= i && CaseSimilarity(w, sqrt, query, columns, rows[i]) >= minSim
  }

  /** Retrieval fails exactly when some passing position is missing from the original catalog. */
  lemma CandidatesFail(w: Weights, sqrt: real -> real, query: map<string, real>, columns: seq<string>,
                       rows: seq<Row>, base: seq<Row>, minSim: real)
    requires IsSqrt(sqrt)
    ensures Candidates(w, sqrt, query, columns, rows, base, minSim).Err? <==>
      exists i :: Dangling(w, sqrt, query, columns, rows, base, minSim, i)
    ensures Candidates(w, sqrt, query, columns, rows, base, minSim).Err? ==>
      Candidates(w, sqrt, query, columns, rows, base, minSim).error == OUT_OF_BOUNDS
  {
    CandidatesFailHasWitness(w, sqrt, query, columns, rows, base, minSim);
    if exists i :: Dangling(w, sqrt, query, columns, rows, base, minSim, i) {
      var i :| Dangling(w, sqrt, query, columns, rows, base, minSim, i);
      DanglingFails(w, sqrt, query, columns, rows, base, minSim, i);
    }
  }

  lemma {:induction false} CandidatesFailHasWitness(w: Weights, sqrt: real -> real, query: map<string, real>, columns: seq<string>,
                                                    rows: seq<Row>, base: seq<Row>, minSim: real)
    requires IsSqrt(sqrt)
    ensures var r := Candidates(w, sqrt, query, columns, rows, base, minSim);
      r.Err? ==> r.error == OUT_OF_BOUNDS && exists i :: Dangling(w, sqrt, query, columns, rows, base, minSim, i)
  {
    if rows != [] {
      var n := |rows| - 1;
      var init := rows[..n];
      CandidatesFailHasWitness(w, sqrt, query, columns, init, base, minSim);
      if Candidates(w, sqrt, query, columns, init, base, minSim).Err? {
        var i :| Dangling(w, sqrt, query, columns, init, base, minSim, i);
        assert init[i] == rows[i];
        assert Dangling(w, sqrt, query, columns, rows, base, minSim, i);
      } else if Candidates(w, sqrt, query, columns, rows, base, minSim).Err? {
        assert Dangling(w, sqrt, query, columns, rows, base, minSim, n);
      }
    }
  }

  lemma {:induction false} DanglingFails(w: Weights, sqrt: real -> real, query: map<string, real>, columns: seq<string>,
                                         rows: seq<Row>, base: seq<Row>, minSim: real, i: int)
    requires IsSqrt(sqrt) && Dangling(w, sqrt, query, columns, rows, base, minSim, i)
    ensures Candidates(w, sqrt, query, columns, rows, base, minSim).Err?
  {
    var n := |rows| - 1;
    var init := rows[..n];
    if i < n {
      assert init[i] == rows[i];
      assert Dangling(w, sqrt, query, columns, init, base, minSim, i);
      DanglingFails(w, sqrt, query, columns, init, base, minSim, i);
    }
  }

  /**
   * Every hit is a passing row: its position is in both frames, its record
   * is the original catalog's record at that position and its similarity is
   * that row's. Positions increase strictly along the list.
   */
  lemma {:induction false} CandidatesSound(w: Weights, sqrt: real -> real, query: map<string, real>, columns: seq<string>,
                                           rows: seq<Row>, base: seq<Row>, minSim: real)
    requires IsSqrt(sqrt)
    requires Candidates(w, sqrt, query, columns, rows, base, minSim).Ok?
    ensures var hits := Candidates(w, sqrt, query, columns, rows, base, minSim).value;
      && (forall k :: 0 <= k < |hits| ==>
            && hits[k].index < |rows| && hits[k].index < |base|
            && hits[k].phone == base[hits[k].index]
            && hits[k].similarity == CaseSimilarity(w, sqrt, query, columns, rows[hits[k].index])
            && hits[k].similarity >= minSim)
      && Increasing(hits, HitIndex)
  {
    if rows != [] {
      var n := |rows| - 1;
      CandidatesSound(w, sqrt, query, columns, rows[..n], base, minSim);
      assert forall i :: 0 <= i < n ==> rows[..n][i] == rows[i];
    }
  }

  /** Every passing row yields a hit. */
  lemma {:induction false} CandidatesComplete(w: Weights, sqrt: real -> real, query: map<string, real>, columns: seq<string>,
                                              rows: seq<Row>, base: seq<Row>, minSim: real)
    requires IsSqrt(sqrt)
    requires Candidates(w, sqrt, query, columns, rows, base, minSim).Ok?
    ensures var hits := Candidates(w, sqrt, query, columns, rows, base, minSim).value;
      forall i :: 0 <= i < |rows| && CaseSimilarity(w, sqrt, query, columns, rows[i]) >= minSim ==>
        exists k :: 0 <= k < |hits| && hits[k].index == i
  {
    if rows != [] {
      var n := |rows| - 1;
      CandidatesComplete(w, sqrt, query, columns, rows[..n], base, minSim);
      var hits := Candidates(w, sqrt, query, columns, rows, base, minSim).value;
      var init := Candidates(w, sqrt, query, columns, rows[..n], base, minSim).value;
      assert forall i :: 0 <= i < n ==> rows[..n][i] == rows[i];
      assert forall k :: 0 <= k < |init| ==> hits[k] == init[k];
      forall i | 0 <= i < |rows| && CaseSimilarity(w, sqrt, query, columns, rows[i]) >= minSim
        ensures exists k :: 0 <= k < |hits| && hits[k].index == i
      {
        if i == n {
          assert hits[|hits| - 1].index == n;
        } else {
          var k :| 0 <= k < |init| && init[k].index == i;
          assert hits[k].index == i;
        }
      }
    }
  }

  /** `results.sort(...)` then `results[:top_k]`. */
  function Ranked(hits: seq<Hit>, topK: int): seq<Hit>
  {
    Take(Sort(hits, ByHitDesc), topK)
  }

  lemma ByHitDescIsPreorder()
    ensures TotalPreorder(ByHitDesc)
  {
  }

  /** The ranked hits are hits, and there are `top_k` of them unless fewer passed. */
  lemma RankedKeepsHits(hits: seq<Hit>, topK: int)
    ensures var r := Ranked(hits, topK);
      && (0 <= topK ==> |r| == if topK <= |hits| then topK else |hits|)
      && (forall k :: 0 <= k < |r| ==> r[k] in hits)
  {
    var s := Sort(hits, ByHitDesc);
    var r := Ranked(hits, topK);
    forall k | 0 <= k < |r| ensures r[k] in hits {
      assert r[k] == s[k];
      assert s[k] in multiset(s);
    }
  }

  /**
   * The ranked list runs from most to least similar, equal similarities in
   * catalog order.
   */
  lemma RankedOrder(hits: seq<Hit>, topK: int)
    requires Increasing(hits, HitIndex)
    ensures var r := Ranked(hits, topK);
      && (forall i, j :: 0 <= i < j < |r| ==> r[i].similarity >= r[j].similarity)
      && (forall i, j :: 0 <= i < j < |r| && r[i].similarity == r[j].similarity ==> r[i].index < r[j].index)
  {
    var s := Sort(hits, ByHitDesc);
    ByHitDescIsPreorder();
    SortSorted(hits, ByHitDesc);
    SortTiesInOrder(hits, ByHitDesc, HitIndex);
    var r := Ranked(hits, topK);
    forall i, j | 0 <= i < j < |r| ensures r[i].similarity >= r[j].similarity
      && (r[i].similarity == r[j].similarity ==> r[i].index < r[j].index)
    {
      assert r[i] == s[i] && r[j] == s[j];
      assert ByHitDesc(s[i], s[j]);
    }
  }

  /** A hit cut by `top_k` is no more similar than any hit kept. */
  lemma RankedIsTop(hits: seq<Hit>, topK: int)
    ensures var r := Ranked(hits, topK);
      forall h :: h in hits && h !in r ==> forall k :: 0 <= k < |r| ==> r[k].similarity >= h.similarity
  {
    var s := Sort(hits, ByHitDesc);
    ByHitDescIsPreorder();
    SortSorted(hits, ByHitDesc);
    var r := Ranked(hits, topK);
    forall h | h in hits && h !in r ensures forall k :: 0 <= k < |r| ==> r[k].similarity >= h.similarity {
      assert h in multiset(s);
      var p :| 0 <= p < |s| && s[p] == h;
      assert r == s[..|r|];
      assert p >= |r|;
      forall k | 0 <= k < |r| ensures r[k].similarity >= h.similarity {
        assert r[k] == s[k] && k < p;
        assert ByHitDesc(s[k], s[p]);
      }
    }
  }

  // ---------------------------------------------------------------- loops that stop at the first exception

  /**
   * A Python loop over `s` that, for the element at position `i`, appends
   * what `step` yields (or nothing), and propagates the first exception.
   */
  function Collect<A, B>(s: seq<A>, step: (nat, A) -> Result<Option<B>>): Result<seq<B>>
  {
    if s == [] then Ok([])
    else
      var n := |s| - 1;
      match Collect(s[..n], step)
      case Err(e) => Err(e)
      case Ok(out) =>
        match step(n, s[n])
        case Err(e) => Err(e)
        case Ok(None) => Ok(out)
        case Ok(Some(y)) => Ok(out + [y])
  }

  /** The loop fails exactly when some element raises. */
  lemma {:induction false} CollectFails<A, B>(s: seq<A>, step: (nat, A) -> Result<Option<B>>)
    ensures Collect(s, step).Err? <==> exists i :: 0 <= i < |s| && step(i, s[i]).Err?
  {
    if s != [] {
      var n := |s| - 1;
      CollectFails(s[..n], step);
      assert forall i :: 0 <= i < n ==> s[..n][i] == s[i];
      if exists i :: 0 <= i < |s| && step(i, s[i]).Err? {
        var i :| 0 <= i < |s| && step(i, s[i]).Err?;
        if i < n { assert step(i, s[..n][i]).Err?; }
      }
    }
  }

  /** Once a prefix raises, the whole loop raises the same exception. */
  lemma {:induction false} CollectFailurePersists<A, B>(s: seq<A>, step: (nat, A) -> Result<Option<B>>, k: nat)
    requires k <= |s| && Collect(s[..k], step).Err?
    ensures Collect(s, step) == Collect(s[..k], step)
    decreases |s| - k
  {
    if k < |s| {
      assert s[..k + 1][..k] == s[..k];
      CollectFailurePersists(s, step, k + 1);
    } else {
      assert s[..k] == s;
    }
  }

  /** One more element: the loop's result on a prefix one longer. */
  lemma CollectStep<A, B>(s: seq<A>, step: (nat, A) -> Result<Option<B>>, k: nat, out: seq<B>)
    requires k < |s| && Collect(s[..k], step) == Ok(out)
    ensures Collect(s[..k + 1], step) ==
      match step(k, s[k])
      case Err(e) => Err(e)
      case Ok(None) => Ok(out)
      case Ok(Some(y)) => Ok(out + [y])
  {
    assert s[..k + 1][..k] == s[..k];
  }

  /** Without an exception, every item collected comes from some element. */
  lemma {:induction false} CollectSound<A, B>(s: seq<A>, step: (nat, A) -> Result<Option<B>>)
    requires Collect(s, step).Ok?
    ensures forall y :: y in Collect(s, step).value ==> exists i :: 0 <= i < |s| && step(i, s[i]) == Ok(Some(y))
  {
    if s != [] {
      var n := |s| - 1;
      CollectSound(s[..n], step);
      assert forall i :: 0 <= i < n ==> s[..n][i] == s[i];
    }
  }

  /** Without an exception, everything an element yields is collected, in element order. */
  lemma {:induction false} CollectComplete<A, B>(s: seq<A>, step: (nat, A) -> Result<Option<B>>)
    requires Collect(s, step).Ok?
    ensures forall i :: 0 <= i < |s| && step(i, s[i]).Ok? && step(i, s[i]).value.Some? ==>
      step(i, s[i]).value.value in Collect(s, step).value
  {
    if s != [] {
      var n := |s| - 1;
      CollectComplete(s[..n], step);
      assert forall i :: 0 <= i < n ==> s[..n][i] == s[i];
    }
  }

  /** When every element yields an item, the loop maps the list position by position. */
  lemma {:induction false} CollectTotal<A, B>(s: seq<A>, step: (nat, A) -> Result<Option<B>>)
    requires Collect(s, step).Ok?
    requires forall i :: 0 <= i < |s| && step(i, s[i]).Ok? ==> step(i, s[i]).value.Some?
    ensures var out := Collect(s, step).value;
      |out| == |s| && forall i :: 0 <= i < |s| ==> step(i, s[i]) == Ok(Some(out[i]))
  {
    if s != [] {
      var n := |s| - 1;
      CollectFails(s, step);
      CollectTotal(s[..n], step);
      assert forall i :: 0 <= i < n ==> s[..n][i] == s[i];
    }
  }

  // ---------------------------------------------------------------- reuse: explanations

  /** `attribute_mappings` of `_generate_explanations`: the preference and the catalog column it is compared with. */
  const ATTRIBUTE_MAPPINGS: seq<(string, string)> :=
    [("ram", "Ram"), ("memori_internal", "Memori_internal"), ("max_harga", "Harga"),
     ("min_baterai", "Kapasitas_baterai"), ("min_rating", "Rating_pengguna"), ("ukuran_layar", "Ukuran_layar")]

  /**
   * One compared attribute of a recommendation. The two values are kept as
   * they are; their display strings are not modelled.
   */
  datatype Explanation = Explanation(attribute: string, userValue: Value, phoneValue: Value, matchScore: real, contribution: real)

  const NAN_TO_INT: string := "cannot convert float NaN to integer"

  /** `max(0, min(1, x))`. */
  function Clamp(x: real): (r: real)
    ensures 0.0 <= r <= 1.0
    ensures 0.0 <= x <= 1.0 ==> r == x
  {
    if x > 1.0 then 1.0 else if x < 0.0 then 0.0 else x
  }

  function Larger(a: real, b: real): real { if a >= b then a else b }

  /**
   * The match score before rounding: one minus the relative difference for
   * two non-zero numbers, otherwise one half; clamped to the unit interval.
   */
  function MatchScore(u: Value, c: Value): (m: real)
    ensures 0.0 <= m <= 1.0
    ensures !(IsFinite(u) && IsFinite(c)) ==> m == 0.5
    ensures IsFinite(u) && IsFinite(c) && (AsReal(u) == 0.0 || AsReal(c) == 0.0) ==> m == 0.5
  {
    if IsFinite(u) && IsFinite(c) && AsReal(u) != 0.0 && AsReal(c) != 0.0 then
      Clamp(1.0 - Abs(AsReal(u) - AsReal(c)) / Larger(AsReal(u), AsReal(c)))
    else 0.5
  }

  /** The score is symmetric, reaches 1 exactly for equal positive values, and needs no clamping for positive values. */
  lemma MatchScoreOfPositives(u: real, c: real)
    requires u > 0.0 && c > 0.0
    ensures MatchScore(Num(u), Num(c)) == 1.0 - Abs(u - c) / Larger(u, c)
    ensures MatchScore(Num(u), Num(c)) == MatchScore(Num(c), Num(u))
    ensures MatchScore(Num(u), Num(c)) == 1.0 <==> u == c
  {
    var m := Larger(u, c);
    RelativeDifference(u, c, m);
  }

  lemma RelativeDifference(u: real, c: real, m: real)
    requires u > 0.0 && c > 0.0 && m == Larger(u, c)
    ensures 0.0 <= Abs(u - c) / m < 1.0
    ensures Abs(u - c) / m == 0.0 <==> u == c
  {
    assert 0.0 <= Abs(u - c) < m;
    DivideBelow(Abs(u - c), m);
  }

  lemma DivideBelow(a: real, m: real)
    requires 0.0 <= a < m
    ensures 0.0 <= a / m < 1.0
    ensures a / m == 0.0 <==> a == 0.0
  {
    var r := 1.0 - a / m;
    assert r * m == m - a;
    assert r > 0.0 by {
      if r <= 0.0 { NonPositiveTimesPositive(r, m); }
    }
  }

  lemma NonPositiveTimesPositive(r: real, m: real)
    requires r <= 0.0 && m > 0.0
    ensures r * m <= 0.0
  {
  }

  /** One half survives rounding to two places. */
  lemma HalfRoundsToHalf()
    ensures RoundTo(0.5, 2) == 0.5
  {
    assert Scale(2) == 100.0 by {
      assert Pow10(2) == 10 * Pow10(1) == 100;
    }
    assert 0.5 * 100.0 == 50.0;
    assert (50.0).Floor == 50;
    assert RoundHalfEven(50.0) == 50;
  }

  /** The preference and the phone both have a value for this pair, so `_generate_explanations` compares them. */
  predicate Compared(prefKey: string, caseKey: string, phone: Row, prefs: Row)
  {
    prefKey in prefs && !prefs[prefKey].Null? && caseKey in phone && !phone[caseKey].Null?
  }

  /**
   * The explanation for one attribute pair: none unless both values are
   * there; a `NaN` on either side raises when it is formatted as an integer.
   * The contribution is the unrounded score times the attribute's weight
   * (10 when the weights do not name it).
   */
  function ExplanationFor(prefKey: string, caseKey: string, phone: Row, prefs: Row, weights: Weights): (r: Result<Option<Explanation>>)
    ensures r.Err? <==> Compared(prefKey, caseKey, phone, prefs) && (prefs[prefKey].NaN? || phone[caseKey].NaN?)
    ensures r.Ok? && r.value.Some? <==> Compared(prefKey, caseKey, phone, prefs) && !prefs[prefKey].NaN? && !phone[caseKey].NaN?
    ensures r.Ok? && r.value.Some? ==>
      var e := r.value.value;
      && e.attribute == caseKey && e.userValue == prefs[prefKey] && e.phoneValue == phone[caseKey]
      && 0.0 <= e.matchScore <= 1.0
      && (!IsFinite(e.userValue) || !IsFinite(e.phoneValue) || AsReal(e.userValue) == 0.0 || AsReal(e.phoneValue) == 0.0 ==>
            e.matchScore == 0.5)
  {
    if !(prefKey in prefs && !prefs[prefKey].Null?) then Ok(None)
    else
      var u := prefs[prefKey];
      var c := Get(phone, caseKey, Null);
      if c.Null? then Ok(None)
      else if u.NaN? || c.NaN? then Err(NAN_TO_INT)
      else
        var m := MatchScore(u, c);
        RoundToAtLeast(m, 0.0, 2);
        RoundToAtMost(m, 1.0, 2);
        HalfRoundsToHalf();
        Ok(Some(Explanation(caseKey, u, c, RoundTo(m, 2), RoundTo(m * WeightOf(weights, caseKey, 10.0), 2))))
  }

  function ExplainStep(phone: Row, prefs: Row, weights: Weights): (nat, (string, string)) -> Result<Option<Explanation>>
  {
    (i: nat, m: (string, string)) => ExplanationFor(m.0, m.1, phone, prefs, weights)
  }

  /** What `_generate_explanations` returns for a phone: nothing for empty preferences. */
  function Explained(phone: Row, prefs: Row, weights: Weights): Result<seq<Explanation>>
  {
    if prefs == map[] then Ok([]) else Collect(ATTRIBUTE_MAPPINGS, ExplainStep(phone, prefs, weights))
  }

  /**
   * Explanations fail exactly when a compared value is `NaN`. Otherwise
   * there is one explanation per attribute both sides have, and only those,
   * each with the two values compared and a score in the unit interval.
   */
  lemma ExplainedSpec(phone: Row, prefs: Row, weights: Weights)
    ensures prefs == map[] ==> Explained(phone, prefs, weights) == Ok([])
    ensures prefs != map[] ==> (Explained(phone, prefs, weights).Err? <==>
      exists k :: 0 <= k < |ATTRIBUTE_MAPPINGS| && Compared(ATTRIBUTE_MAPPINGS[k].0, ATTRIBUTE_MAPPINGS[k].1, phone, prefs) &&
        (prefs[ATTRIBUTE_MAPPINGS[k].0].NaN? || phone[ATTRIBUTE_MAPPINGS[k].1].NaN?))
    ensures Explained(phone, prefs, weights).Ok? ==>
      var es := Explained(phone, prefs, weights).value;
      && (forall e :: e in es ==>
            && (exists k :: 0 <= k < |ATTRIBUTE_MAPPINGS| && ATTRIBUTE_MAPPINGS[k].1 == e.attribute &&
                  Compared(ATTRIBUTE_MAPPINGS[k].0, e.attribute, phone, prefs) &&
                  e.userValue == prefs[ATTRIBUTE_MAPPINGS[k].0] && e.phoneValue == phone[e.attribute])
            && 0.0 <= e.matchScore <= 1.0)
      && (forall k :: 0 <= k < |ATTRIBUTE_MAPPINGS| && prefs != map[] && Compared(ATTRIBUTE_MAPPINGS[k].0, ATTRIBUTE_MAPPINGS[k].1, phone, prefs) ==>
            exists e :: e in es && e.attribute == ATTRIBUTE_MAPPINGS[k].1)
  {
    if prefs != map[] {
      var ms, step := ATTRIBUTE_MAPPINGS, ExplainStep(phone, prefs, weights);
      CollectFails(ms, step);
      if Collect(ms, step).Ok? {
        CollectSound(ms, step);
        CollectComplete(ms, step);
        var es := Collect(ms, step).value;
        forall k | 0 <= k < |ms| && Compared(ms[k].0, ms[k].1, phone, prefs)
          ensures exists e :: e in es && e.attribute == ms[k].1
        {
          assert step(k, ms[k]).Ok?;
          assert step(k, ms[k]).value.value in es;
        }
      }
    }
  }

  // ---------------------------------------------------------------- reuse: highlights

  /** The highlights `_generate_highlights` can report; their display strings are not modelled. */
  datatype Highlight =
    | WithinBudget | EnoughRam | BigBattery | HighRating
    | FavouriteBrand(brand: Value) | MatchingOs(os: Value)
    | VeryHighRating | JumboBattery

  /** `x <= y` between catalog and preference numbers; a comparison with `NaN` is false. */
  predicate NumLe(x: Value, y: Value) { IsFinite(x) && IsFinite(y) && AsReal(x) <= AsReal(y) }

  const NOT_A_STRING: string := "'in <string>' requires string as left operand"
  const NOT_ITERABLE: string := "argument is not iterable"
  const NO_LOWER: string := "object has no attribute 'lower'"

  /** `brand in brands`: membership in a list, a substring test in a string, an exception otherwise. */
  function BrandAmong(brand: Value, brands: Value): Result<bool>
  {
    match brands
    case Strs(items) => Ok(brand.Str? && brand.s in items)
    case Str(t) => if brand.Str? then Ok(Contains(t, brand.s)) else Err(NOT_A_STRING)
    case _ => Err(NOT_ITERABLE)
  }

  /** `os.lower() == target` for a phone's OS cell (an absent one reads as the empty string). */
  function OsMatch(os: Value, target: string): Result<bool>
  {
    if os.Str? then Ok(Lower(os.s) == target) else Err(NO_LOWER)
  }

  /** The preferred-OS check: the preference, too, must be a string. */
  function OsPreferred(phone: Row, preferred: Value): Result<bool>
  {
    var os := Get(phone, "Os", Str(""));
    if !os.Str? then Err(NO_LOWER)
    else if !preferred.Str? then Err(NO_LOWER)
    else OsMatch(os, Lower(preferred.s))
  }

  /** A truthy preference `key` that the phone's `column` (0 when absent) stays within; `atMost` for an upper bound. */
  predicate MeetsPref(phone: Row, prefs: Row, key: string, column: string, atMost: bool)
  {
    var p := Get(prefs, key, Null);
    var x := Get(phone, column, Num(0.0));
    Truthy(p) && (if atMost then NumLe(x, p) else NumLe(p, x))
  }

  /** The exception the brand and OS checks raise, if any. */
  function HighlightFailure(phone: Row, prefs: Row): Option<string>
  {
    var brands := Get(prefs, "preferred_brands", Null);
    var os := Get(prefs, "preferred_os", Null);
    var b := if Truthy(brands) then BrandAmong(Get(phone, "Brand", Str("")), brands) else Ok(false);
    var o := if Truthy(os) then OsPreferred(phone, os) else Ok(false);
    if b.Err? then Some(b.error) else if o.Err? then Some(o.error) else None
  }

  /** The highlights whose flag is set, in order. */
  function Flagged(s: seq<(bool, Highlight)>): seq<Highlight>
  {
    if s == [] then [] else (if s[0].0 then [s[0].1] else []) + Flagged(s[1..])
  }

  lemma {:induction false} FlaggedSpec(s: seq<(bool, Highlight)>)
    requires forall i, j :: 0 <= i < j < |s| ==> HighlightRank(s[i].1) < HighlightRank(s[j].1)
    ensures forall h :: h in Flagged(s) <==> (true, h) in s
    ensures forall i, j :: 0 <= i < j < |Flagged(s)| ==> HighlightRank(Flagged(s)[i]) < HighlightRank(Flagged(s)[j])
    ensures forall h :: h in Flagged(s) ==> exists i :: 0 <= i < |s| && s[i].1 == h
  {
    if s != [] {
      FlaggedSpec(s[1..]);
      assert forall x :: x in s[1..] ==> x in s;
      forall h | h in Flagged(s[1..]) ensures HighlightRank(s[0].1) < HighlightRank(h) {
        var i :| 0 <= i < |s[1..]| && s[1..][i].1 == h;
        assert s[i + 1].1 == h;
      }
    }
  }

  /** The checks of `_generate_highlights` in their order, each with whether it passed. */
  function HighlightChecks(phone: Row, prefs: Row, brandHit: bool, osHit: bool): seq<(bool, Highlight)>
  {
    [(MeetsPref(phone, prefs, "max_harga", "Harga", true), WithinBudget),
     (MeetsPref(phone, prefs, "ram", "Ram", false), EnoughRam),
     (MeetsPref(phone, prefs, "min_baterai", "Kapasitas_baterai", false), BigBattery),
     (MeetsPref(phone, prefs, "min_rating", "Rating_pengguna", false), HighRating),
     (brandHit, FavouriteBrand(Get(phone, "Brand", Null))),
     (osHit, MatchingOs(Get(phone, "Os", Null))),
     (NumLe(Num(4.5), Get(phone, "Rating_pengguna", Num(0.0))), VeryHighRating),
     (NumLe(Num(5000.0), Get(phone, "Kapasitas_baterai", Num(0.0))), JumboBattery)]
  }

  /** `_generate_highlights`: nothing for empty preferences; otherwise the checks in their order, then the two general ones. */
  function Highlights(phone: Row, prefs: Row): Result<seq<Highlight>>
  {
    if prefs == map[] then Ok([])
    else
      var brands := Get(prefs, "preferred_brands", Null);
      var os := Get(prefs, "preferred_os", Null);
      var b := if Truthy(brands) then BrandAmong(Get(phone, "Brand", Str("")), brands) else Ok(false);
      if b.Err? then Err(b.error)
      else
        var o := if Truthy(os) then OsPreferred(phone, os) else Ok(false);
        if o.Err? then Err(o.error)
        else Ok(Flagged(HighlightChecks(phone, prefs, b.value, o.value)))
  }

  /** When a phone earns highlight `h` under non-empty preferences. */
  predicate Earned(h: Highlight, phone: Row, prefs: Row)
  {
    var brands := Get(prefs, "preferred_brands", Null);
    var os := Get(prefs, "preferred_os", Null);
    match h
    case WithinBudget => MeetsPref(phone, prefs, "max_harga", "Harga", true)
    case EnoughRam => MeetsPref(phone, prefs, "ram", "Ram", false)
    case BigBattery => MeetsPref(phone, prefs, "min_baterai", "Kapasitas_baterai", false)
    case HighRating => MeetsPref(phone, prefs, "min_rating", "Rating_pengguna", false)
    case FavouriteBrand(v) => v == Get(phone, "Brand", Null) && Truthy(brands) && BrandAmong(Get(phone, "Brand", Str("")), brands) == Ok(true)
    case MatchingOs(v) => v == Get(phone, "Os", Null) && Truthy(os) && OsPreferred(phone, os) == Ok(true)
    case VeryHighRating => NumLe(Num(4.5), Get(phone, "Rating_pengguna", Num(0.0)))
    case JumboBattery => NumLe(Num(5000.0), Get(phone, "Kapasitas_baterai", Num(0.0)))
  }

  /**
   * Empty preferences give no highlight. Otherwise the brand and OS checks
   * are the only ones that can raise, and without an exception the list
   * holds exactly the earned highlights, none twice.
   */
  lemma HighlightsSpec(phone: Row, prefs: Row)
    ensures prefs == map[] ==> Highlights(phone, prefs) == Ok([])
    ensures prefs != map[] ==> (Highlights(phone, prefs).Err? <==> HighlightFailure(phone, prefs).Some?)
    ensures prefs != map[] && Highlights(phone, prefs).Ok? ==>
      var hs := Highlights(phone, prefs).value;
      && (forall h :: h in hs <==> Earned(h, phone, prefs))
      && (forall i, j :: 0 <= i < j < |hs| ==> hs[i] != hs[j])
  {
    if prefs != map[] && Highlights(phone, prefs).Ok? {
      var brands := Get(prefs, "preferred_brands", Null);
      var os := Get(prefs, "preferred_os", Null);
      var b := if Truthy(brands) then BrandAmong(Get(phone, "Brand", Str("")), brands) else Ok(false);
      var o := if Truthy(os) then OsPreferred(phone, os) else Ok(false);
      var checks := HighlightChecks(phone, prefs, b.value, o.value);
      FlaggedSpec(checks);
      forall h ensures (true, h) in checks <==> Earned(h, phone, prefs) {
        EarnedIsChecked(h, phone, prefs, b.value, o.value);
      }
    }
  }

  lemma EarnedIsChecked(h: Highlight, phone: Row, prefs: Row, brandHit: bool, osHit: bool)
    requires var brands := Get(prefs, "preferred_brands", Null);
      brandHit == (Truthy(brands) && BrandAmong(Get(phone, "Brand", Str("")), brands) == Ok(true))
    requires var os := Get(prefs, "preferred_os", Null);
      osHit == (Truthy(os) && OsPreferred(phone, os) == Ok(true))
    ensures (true, h) in HighlightChecks(phone, prefs, brandHit, osHit) <==> Earned(h, phone, prefs)
  {
    var checks := HighlightChecks(phone, prefs, brandHit, osHit);
    assert (true, h) in checks <==> exists i :: 0 <= i < 8 && checks[i] == (true, h);
    match h
    case WithinBudget => assert checks[0].1 == h;
    case EnoughRam => assert checks[1].1 == h;
    case BigBattery => assert checks[2].1 == h;
    case HighRating => assert checks[3].1 == h;
    case FavouriteBrand(_) => assert checks[4].1.FavouriteBrand?;
    case MatchingOs(_) => assert checks[5].1.MatchingOs?;
    case VeryHighRating => assert checks[6].1 == h;
    case JumboBattery => assert checks[7].1 == h;
  }

  /** Where each kind of highlight stands in the reported order. */
  function HighlightRank(h: Highlight): nat
  {
    match h
    case WithinBudget => 0
    case EnoughRam => 1
    case BigBattery => 2
    case HighRating => 3
    case FavouriteBrand(_) => 4
    case MatchingOs(_) => 5
    case VeryHighRating => 6
    case JumboBattery => 7
  }

  // ---------------------------------------------------------------- reuse: recommendations

  /** A recommendation as `reuse` builds it (and `revise` adjusts it). */
  datatype Recommendation = Recommendation(
    rank: int, phone: Row, similarityScore: real, similarityPercentage: real,
    explanations: seq<Explanation>, highlights: seq<Highlight>)

  /** The recommendation ranked `rank` for a hit: explanations are built before highlights. */
  function RecommendationFor(rank: int, h: Hit, prefs: Row, weights: Weights): Result<Recommendation>
  {
    match Explained(h.phone, prefs, weights)
    case Err(e) => Err(e)
    case Ok(es) =>
      match Highlights(h.phone, prefs)
      case Err(e) => Err(e)
      case Ok(hs) => Ok(Recommendation(rank, h.phone, h.similarity, RoundTo(h.similarity * 100.0, 2), es, hs))
  }

  function ReuseStep(prefs: Row, weights: Weights): (nat, Hit) -> Result<Option<Recommendation>>
  {
    (i: nat, h: Hit) => ReuseAt(prefs, weights, i, h)
  }

  /** The step at position `i`: the recommendation ranked `i + 1`. */
  function ReuseAt(prefs: Row, weights: Weights, i: nat, h: Hit): Result<Option<Recommendation>>
  {
    match RecommendationFor(i + 1, h, prefs, weights)
    case Err(e) => Err(e)
    case Ok(rec) => Ok(Some(rec))
  }

  /** What `reuse` returns: the hits in order, ranked from 1. */
  function Reused(hits: seq<Hit>, prefs: Row, weights: Weights): Result<seq<Recommendation>>
  {
    Collect(hits, ReuseStep(prefs, weights))
  }

  /** Reuse fails exactly when some hit's explanations or highlights raise. */
  lemma ReusedFails(hits: seq<Hit>, prefs: Row, weights: Weights)
    ensures Reused(hits, prefs, weights).Err? <==>
      exists i :: 0 <= i < |hits| && (Explained(hits[i].phone, prefs, weights).Err? || Highlights(hits[i].phone, prefs).Err?)
  {
    var step := ReuseStep(prefs, weights);
    CollectFails(hits, step);
    forall i | 0 <= i < |hits|
      ensures step(i, hits[i]).Err? <==> Explained(hits[i].phone, prefs, weights).Err? || Highlights(hits[i].phone, prefs).Err?
    {
      ReuseStepFails(prefs, weights, i, hits[i]);
    }
  }

  lemma ReuseStepFails(prefs: Row, weights: Weights, i: nat, h: Hit)
    ensures ReuseStep(prefs, weights)(i, h).Err? <==> Explained(h.phone, prefs, weights).Err? || Highlights(h.phone, prefs).Err?
  {
    assert ReuseStep(prefs, weights)(i, h) == ReuseAt(prefs, weights, i, h);
    RecommendationForFails(i + 1, h, prefs, weights);
  }

  lemma RecommendationForFails(rank: int, h: Hit, prefs: Row, weights: Weights)
    ensures RecommendationFor(rank, h, prefs, weights).Err? <==> Explained(h.phone, prefs, weights).Err? || Highlights(h.phone, prefs).Err?
  {
  }

  /**
   * Reuse keeps every hit in its place: the recommendation at position `i`
   * is the one ranked `i + 1` for hit `i`, with that hit's phone and
   * similarity, and a percentage between 0 and 100 for a similarity in the
   * unit interval.
   */
  lemma ReusedSpec(hits: seq<Hit>, prefs: Row, weights: Weights)
    requires Reused(hits, prefs, weights).Ok?
    ensures var rs := Reused(hits, prefs, weights).value;
      && |rs| == |hits|
      && (forall i :: 0 <= i < |hits| ==> RecommendationFor(i + 1, hits[i], prefs, weights) == Ok(rs[i]))
      && (forall i :: 0 <= i < |hits| ==>
            && rs[i].rank == i + 1 && rs[i].phone == hits[i].phone && rs[i].similarityScore == hits[i].similarity
            && (0.0 <= hits[i].similarity <= 1.0 ==> 0.0 <= rs[i].similarityPercentage <= 100.0))
  {
    var step := ReuseStep(prefs, weights);
    CollectTotal(hits, step);
    var rs := Reused(hits, prefs, weights).value;
    forall i | 0 <= i < |hits| ensures RecommendationFor(i + 1, hits[i], prefs, weights) == Ok(rs[i]) {
      assert step(i, hits[i]) == Ok(Some(rs[i]));
    }
    forall i | 0 <= i < |hits|
      ensures && rs[i].rank == i + 1 && rs[i].phone == hits[i].phone && rs[i].similarityScore == hits[i].similarity
        && (0.0 <= hits[i].similarity <= 1.0 ==> 0.0 <= rs[i].similarityPercentage <= 100.0)
    {
      RecommendationForSpec(i + 1, hits[i], prefs, weights);
    }
  }

  lemma RecommendationForSpec(rank: int, h: Hit, prefs: Row, weights: Weights)
    requires RecommendationFor(rank, h, prefs, weights).Ok?
    ensures var r := RecommendationFor(rank, h, prefs, weights).value;
      && r.rank == rank && r.phone == h.phone && r.similarityScore == h.similarity
      && r.explanations == Explained(h.phone, prefs, weights).value
      && r.highlights == Highlights(h.phone, prefs).value
      && (0.0 <= h.similarity <= 1.0 ==> 0.0 <= r.similarityPercentage <= 100.0)
  {
    if 0.0 <= h.similarity <= 1.0 {
      PercentageBounds(h.similarity);
    }
  }

  lemma PercentageBounds(s: real)
    requires 0.0 <= s <= 1.0
    ensures 0.0 <= RoundTo(s * 100.0, 2) <= 100.0
  {
    RoundToAtLeast(s * 100.0, 0.0, 2);
    RoundToAtMost(s * 100.0, 100.0, 2);
  }

  // ---------------------------------------------------------------- revise

  /** `r['phone'].get('Stok_tersedia', True)`: a phone without a stock flag counts as in stock. */
  predicate InStock(r: Recommendation) { Truthy(Get(r.phone, "Stok_tersedia", Bool(true))) }

  /** `min(100, x)`. */
  function CapHundred(x: real): real { if x < 100.0 then x else 100.0 }

  /** Multiplies the similarity by `factor` and recomputes the percentage, capped at 100. */
  function Boost(r: Recommendation, factor: real): Recommendation
  {
    var s := r.similarityScore * factor;
    r.(similarityScore := s, similarityPercentage := RoundTo(CapHundred(s * 100.0), 2))
  }

  const BRAND_BOOST: real := 1.1
  const OS_BOOST: real := 1.05

  function BrandStep(brands: Value): (nat, Recommendation) -> Result<Option<Recommendation>>
  {
    (i: nat, r: Recommendation) =>
      match BrandAmong(Get(r.phone, "Brand", Null), brands)
      case Err(e) => Err(e)
      case Ok(hit) => Ok(Some(if hit then Boost(r, BRAND_BOOST) else r))
  }

  function OsStep(target: string): (nat, Recommendation) -> Result<Option<Recommendation>>
  {
    (i: nat, r: Recommendation) =>
      match OsMatch(Get(r.phone, "Os", Str("")), target)
      case Err(e) => Err(e)
      case Ok(hit) => Ok(Some(if hit then Boost(r, OS_BOOST) else r))
  }

  /** The stock filter of `revise`. */
  function Stocked(recs: seq<Recommendation>, filters: Row): seq<Recommendation>
  {
    if Truthy(Get(filters, "only_in_stock", Bool(false))) then Filter(recs, InStock) else recs
  }

  /** The brand loop, then the OS loop (whose target is lower-cased first, even for an empty list). */
  function Boosted(recs: seq<Recommendation>, filters: Row): Result<seq<Recommendation>>
  {
    var brands := Get(filters, "preferred_brands", Null);
    var os := Get(filters, "preferred_os", Null);
    match (if Truthy(brands) then Collect(recs, BrandStep(brands)) else Ok(recs))
    case Err(e) => Err(e)
    case Ok(b) =>
      if !Truthy(os) then Ok(b)
      else if !os.Str? then Err(NO_LOWER)
      else Collect(b, OsStep(Lower(os.s)))
  }

  /** `sort(key=similarity_score, reverse=True)`. */
  predicate ByAdjustedScore(a: Recommendation, b: Recommendation) { a.similarityScore >= b.similarityScore }

  function Reranked(s: seq<Recommendation>): (r: seq<Recommendation>)
    ensures |r| == |s| && forall i :: 0 <= i < |s| ==> r[i] == s[i].(rank := i + 1)
  {
    seq(|s|, i requires 0 <= i < |s| => s[i].(rank := i + 1))
  }

  /** What `revise` returns: its input for empty filters, otherwise filtered, boosted, re-sorted and re-ranked. */
  function Revised(recs: seq<Recommendation>, filters: Row): Result<seq<Recommendation>>
  {
    if filters == map[] then Ok(recs)
    else
      match Boosted(Stocked(recs, filters), filters)
      case Err(e) => Err(e)
      case Ok(b) => Ok(Reranked(Sort(b, ByAdjustedScore)))
  }

  /** The adjustment `revise` makes to one recommendation, as a reference for its two loops. */
  function Adjusted(r: Recommendation, filters: Row): Result<Recommendation>
  {
    var brands := Get(filters, "preferred_brands", Null);
    var os := Get(filters, "preferred_os", Null);
    var b := if Truthy(brands) then BrandAmong(Get(r.phone, "Brand", Null), brands) else Ok(false);
    var o := if !Truthy(os) then Ok(false) else if !os.Str? then Err(NO_LOWER) else OsMatch(Get(r.phone, "Os", Str("")), Lower(os.s));
    if b.Err? then Err(b.error)
    else if o.Err? then Err(o.error)
    else
      var r1 := if b.value then Boost(r, BRAND_BOOST) else r;
      Ok(if o.value then Boost(r1, OS_BOOST) else r1)
  }

  /** An adjustment keeps the phone, its explanations and highlights, and never lowers a non-negative similarity. */
  lemma AdjustedSpec(r: Recommendation, filters: Row)
    requires Adjusted(r, filters).Ok?
    ensures var a := Adjusted(r, filters).value;
      && a.phone == r.phone && a.rank == r.rank && a.explanations == r.explanations && a.highlights == r.highlights
      && (r.similarityScore >= 0.0 ==> a.similarityScore >= r.similarityScore)
      && (a.similarityScore == r.similarityScore || a.similarityScore == r.similarityScore * BRAND_BOOST
          || a.similarityScore == r.similarityScore * OS_BOOST || a.similarityScore == r.similarityScore * BRAND_BOOST * OS_BOOST)
  {
  }

  /** The brand and OS loops together adjust each recommendation on its own, in place. */
  lemma BoostedIsAdjusted(recs: seq<Recommendation>, filters: Row)
    requires Boosted(recs, filters).Ok?
    ensures var b := Boosted(recs, filters).value;
      |b| == |recs| && forall i :: 0 <= i < |recs| ==> Adjusted(recs[i], filters) == Ok(b[i])
  {
    var brands := Get(filters, "preferred_brands", Null);
    var os := Get(filters, "preferred_os", Null);
    var b := if Truthy(brands) then Collect(recs, BrandStep(brands)).value else recs;
    if Truthy(brands) {
      CollectTotal(recs, BrandStep(brands));
    }
    assert |b| == |recs| && forall i :: 0 <= i < |recs| ==> b[i].phone == recs[i].phone;
    if Truthy(os) {
      var step := OsStep(Lower(os.s));
      CollectTotal(b, step);
    }
  }

  /**
   * On non-empty filters `revise` keeps one recommendation per (stock-filtered)
   * input, re-ranked from 1 in order of non-increasing adjusted similarity.
   */
  lemma RevisedOrder(recs: seq<Recommendation>, filters: Row)
    requires filters != map[] && Revised(recs, filters).Ok?
    ensures var rs := Revised(recs, filters).value;
      && |rs| == |Stocked(recs, filters)|
      && (forall i :: 0 <= i < |rs| ==> rs[i].rank == i + 1)
      && (forall i, j :: 0 <= i < j < |rs| ==> rs[i].similarityScore >= rs[j].similarityScore)
  {
    var st := Stocked(recs, filters);
    var b := Boosted(st, filters).value;
    BoostedIsAdjusted(st, filters);
    var sorted := Sort(b, ByAdjustedScore);
    SortSorted(b, ByAdjustedScore);
    var rs := Reranked(sorted);
    forall i, j | 0 <= i < j < |rs| ensures rs[i].similarityScore >= rs[j].similarityScore {
      assert ByAdjustedScore(sorted[i], sorted[j]);
    }
  }

  /** Every output of `revise` is the adjusted version of some (stock-filtered) input. */
  lemma RevisedFromInput(recs: seq<Recommendation>, filters: Row)
    requires filters != map[] && Revised(recs, filters).Ok?
    ensures var rs := Revised(recs, filters).value; var st := Stocked(recs, filters);
      forall i :: 0 <= i < |rs| ==> exists j :: 0 <= j < |st| && Adjusted(st[j], filters) == Ok(rs[i].(rank := st[j].rank))
  {
    var st := Stocked(recs, filters);
    var b := Boosted(st, filters).value;
    BoostedIsAdjusted(st, filters);
    var sorted := Sort(b, ByAdjustedScore);
    var rs := Reranked(sorted);
    forall i | 0 <= i < |rs| ensures exists j :: 0 <= j < |st| && Adjusted(st[j], filters) == Ok(rs[i].(rank := st[j].rank)) {
      assert sorted[i] in multiset(b);
      var j :| 0 <= j < |b| && b[j] == sorted[i];
      AdjustedSpec(st[j], filters);
      assert rs[i].(rank := st[j].rank) == b[j];
    }
  }

  /** Every (stock-filtered) input of `revise` appears, adjusted, in its output. */
  lemma RevisedCoversInput(recs: seq<Recommendation>, filters: Row)
    requires filters != map[] && Revised(recs, filters).Ok?
    ensures var rs := Revised(recs, filters).value; var st := Stocked(recs, filters);
      forall j :: 0 <= j < |st| ==> exists i :: 0 <= i < |rs| && Adjusted(st[j], filters) == Ok(rs[i].(rank := st[j].rank))
  {
    var st := Stocked(recs, filters);
    var b := Boosted(st, filters).value;
    BoostedIsAdjusted(st, filters);
    var sorted := Sort(b, ByAdjustedScore);
    var rs := Reranked(sorted);
    forall j | 0 <= j < |st| ensures exists i :: 0 <= i < |rs| && Adjusted(st[j], filters) == Ok(rs[i].(rank := st[j].rank)) {
      assert b[j] in multiset(sorted);
      var i :| 0 <= i < |sorted| && sorted[i] == b[j];
      AdjustedSpec(st[j], filters);
      assert rs[i].(rank := st[j].rank) == b[j];
    }
  }

  /** Empty filters leave the recommendations as they are. */
  lemma RevisedWithoutFilters(recs: seq<Recommendation>)
    ensures Revised(recs, map[]) == Ok(recs)
  {
  }

  /** With `only_in_stock`, every phone kept is in stock and every in-stock phone is kept. */
  lemma RevisedInStock(recs: seq<Recommendation>, filters: Row)
    requires filters != map[] && Revised(recs, filters).Ok? && Truthy(Get(filters, "only_in_stock", Bool(false)))
    ensures var rs := Revised(recs, filters).value;
      && (forall i :: 0 <= i < |rs| ==> InStock(rs[i]))
      && (forall r :: r in recs && InStock(r) ==> exists i :: 0 <= i < |rs| && rs[i].phone == r.phone)
  {
    var st := Stocked(recs, filters);
    var b := Boosted(st, filters).value;
    BoostedKeepsPhones(st, filters);
    var sorted := Sort(b, ByAdjustedScore);
    KeptInStock(recs, st, b, sorted, Reranked(sorted));
  }

  /** Both loops of `revise` keep every phone in its place. */
  lemma BoostedKeepsPhones(recs: seq<Recommendation>, filters: Row)
    requires Boosted(recs, filters).Ok?
    ensures var b := Boosted(recs, filters).value;
      |b| == |recs| && forall i :: 0 <= i < |recs| ==> b[i].phone == recs[i].phone
  {
    var brands := Get(filters, "preferred_brands", Null);
    var os := Get(filters, "preferred_os", Null);
    if Truthy(brands) {
      BrandLoopKeepsPhones(recs, brands);
    }
    var b := if Truthy(brands) then Collect(recs, BrandStep(brands)).value else recs;
    if Truthy(os) && os.Str? {
      OsLoopKeepsPhones(b, Lower(os.s));
    }
  }

  lemma BrandLoopKeepsPhones(recs: seq<Recommendation>, brands: Value)
    requires Collect(recs, BrandStep(brands)).Ok?
    ensures var b := Collect(recs, BrandStep(brands)).value;
      |b| == |recs| && forall i :: 0 <= i < |recs| ==> b[i].phone == recs[i].phone
  {
    CollectTotal(recs, BrandStep(brands));
  }

  lemma OsLoopKeepsPhones(recs: seq<Recommendation>, target: string)
    requires Collect(recs, OsStep(target)).Ok?
    ensures var b := Collect(recs, OsStep(target)).value;
      |b| == |recs| && forall i :: 0 <= i < |recs| ==> b[i].phone == recs[i].phone
  {
    CollectTotal(recs, OsStep(target));
  }

  /** The stock facts of `RevisedInStock`: filtering, then steps that keep each phone, a permutation and re-ranking. */
  lemma KeptInStock(recs: seq<Recommendation>, st: seq<Recommendation>, b: seq<Recommendation>,
                    sorted: seq<Recommendation>, rs: seq<Recommendation>)
    requires st == Filter(recs, InStock)
    requires |b| == |st| && forall i :: 0 <= i < |st| ==> b[i].phone == st[i].phone
    requires multiset(sorted) == multiset(b)
    requires |rs| == |sorted| && forall i :: 0 <= i < |sorted| ==> rs[i] == sorted[i].(rank := i + 1)
    ensures forall i :: 0 <= i < |rs| ==> InStock(rs[i])
    ensures forall r :: r in recs && InStock(r) ==> exists i :: 0 <= i < |rs| && rs[i].phone == r.phone
  {
    forall i | 0 <= i < |rs| ensures InStock(rs[i]) {
      assert sorted[i] in multiset(b);
      var j :| 0 <= j < |b| && b[j] == sorted[i];
      assert st[j] in st;
    }
    forall r | r in recs && InStock(r) ensures exists i :: 0 <= i < |rs| && rs[i].phone == r.phone {
      assert r in st;
      var j :| 0 <= j < |st| && st[j] == r;
      assert b[j] in multiset(sorted);
      var i :| 0 <= i < |sorted| && sorted[i] == b[j];
      assert rs[i].phone == r.phone;
    }
  }

  // ---------------------------------------------------------------- recommend

  /** `_extract_query_from_input`: the query dict in insertion order. */
  function ExtractQuery(ui: Row): (q: seq<(string, Value)>)
  {
    (Pick(ui, "ram", "ram") + Pick(ui, "memori_internal", "memori_internal"))
    + PriceEntry(Get(ui, "max_harga", Null), Get(ui, "min_harga", Null))
    + ((Pick(ui, "min_baterai", "kapasitas_baterai") + Pick(ui, "min_rating", "rating"))
       + (Pick(ui, "ukuran_layar", "ukuran_layar") + Pick(ui, "resolusi_kamera", "resolusi_kamera")))
  }

  /** The `harga` entry: `max_harga` when truthy, else the midpoint when both bounds are truthy. */
  function PriceEntry(maxPrice: Value, minPrice: Value): seq<(string, Value)>
  {
    if Truthy(maxPrice) then [("harga", maxPrice)]
    else if Truthy(minPrice) && Truthy(maxPrice) then [("harga", Midpoint(minPrice, maxPrice))]
    else []
  }

  /**
   * The midpoint branch needs a truthy `max_harga` after the first branch
   * has ruled one out, so it is dead: the entry is `max_harga` or nothing,
   * whatever `min_harga` holds.
   */
  lemma PriceEntryIsMaxPrice(maxPrice: Value, minPrice: Value)
    ensures PriceEntry(maxPrice, minPrice) == if Truthy(maxPrice) then [("harga", maxPrice)] else []
  {
  }

  /** `if user_input.get(key): query[name] = user_input[key]`. */
  function Pick(ui: Row, key: string, name: string): (q: seq<(string, Value)>)
    ensures forall j :: 0 <= j < |q| ==> q[j].0 == name
  {
    var x := Get(ui, key, Null);
    if Truthy(x) then [(name, x)] else []
  }

  /** `(min_harga + max_harga) / 2` on numbers. */
  function Midpoint(a: Value, b: Value): Value
  {
    if IsFinite(a) && IsFinite(b) then Num((AsReal(a) + AsReal(b)) / 2.0) else NaN
  }

  /** The query carries a price exactly when `max_harga` is truthy. */
  lemma ExtractQueryPrice(ui: Row)
    ensures var q := ExtractQuery(ui);
      (exists j :: 0 <= j < |q| && q[j].0 == "harga") <==> Truthy(Get(ui, "max_harga", Null))
  {
    var a := Pick(ui, "ram", "ram") + Pick(ui, "memori_internal", "memori_internal");
    var p := PriceEntry(Get(ui, "max_harga", Null), Get(ui, "min_harga", Null));
    var b1 := Pick(ui, "min_baterai", "kapasitas_baterai") + Pick(ui, "min_rating", "rating");
    var b2 := Pick(ui, "ukuran_layar", "ukuran_layar") + Pick(ui, "resolusi_kamera", "resolusi_kamera");
    PriceEntryIsMaxPrice(Get(ui, "max_harga", Null), Get(ui, "min_harga", Null));
    NoNameOutside(a, p, b1 + b2, "harga");
    if p != [] {
      assert p[0].0 == "harga";
    }
  }

  /** Only the middle part of `a + p + b` can carry `name`. */
  lemma NoNameOutside(a: seq<(string, Value)>, p: seq<(string, Value)>, b: seq<(string, Value)>, name: string)
    requires forall j :: 0 <= j < |a| ==> a[j].0 != name
    requires forall j :: 0 <= j < |b| ==> b[j].0 != name
    ensures var q := a + p + b;
      (exists j :: 0 <= j < |q| && q[j].0 == name) <==> (exists j :: 0 <= j < |p| && p[j].0 == name)
  {
    var q := a + p + b;
    if j :| 0 <= j < |q| && q[j].0 == name {
      assert j - |a| < |p| && q[j] == p[j - |a|];
    }
    if j :| 0 <= j < |p| && p[j].0 == name {
      assert q[|a| + j] == p[j];
    }
  }

  /** Updating one key leaves every other key's lookup alone. */
  lemma GetOtherKey(ui: Row, k: string, v: Value, key: string)
    requires key != k
    ensures Get(ui[k := v], key, Null) == Get(ui, key, Null)
  {
  }

  /** The query never depends on `min_harga`. */
  lemma ExtractQueryIgnoresMinPrice(ui: Row, v: Value)
    ensures ExtractQuery(ui["min_harga" := v]) == ExtractQuery(ui)
  {
    var ui' := ui["min_harga" := v];
    PriceEntryIsMaxPrice(Get(ui, "max_harga", Null), Get(ui, "min_harga", Null));
    PriceEntryIsMaxPrice(Get(ui', "max_harga", Null), Get(ui', "min_harga", Null));
    GetOtherKey(ui, "min_harga", v, "max_harga");
    PickOtherKey(ui, v, "ram", "ram");
    PickOtherKey(ui, v, "memori_internal", "memori_internal");
    PickOtherKey(ui, v, "min_baterai", "kapasitas_baterai");
    PickOtherKey(ui, v, "min_rating", "rating");
    PickOtherKey(ui, v, "ukuran_layar", "ukuran_layar");
    PickOtherKey(ui, v, "resolusi_kamera", "resolusi_kamera");
  }

  /** A pick reads its own key only. */
  lemma PickOtherKey(ui: Row, v: Value, key: string, name: string)
    requires key != "min_harga"
    ensures Pick(ui["min_harga" := v], key, name) == Pick(ui, key, name)
  {
    GetOtherKey(ui, "min_harga", v, key);
  }

  /** The summary `_summarize_query` returns; the display strings built from these values are not modelled. */
  datatype QuerySummary = QuerySummary(
    budget: Option<(int, int)>, ram: Option<Value>, storage: Option<Value>, battery: Option<Value>,
    brands: Option<Value>, os: Option<Value>)

  /** `int(v)` on a cell: truncation for a number; `NaN`, strings and lists raise. */
  function IntOf(v: Value): Result<int>
  {
    if IsFinite(v) then Ok(Trunc(AsReal(v)))
    else if v.NaN? then Err(NAN_TO_INT)
    else Err("invalid argument for int()")
  }

  const MAX_BUDGET: int := 50000000

  /** A value unless the key is absent or `None`. */
  function Given(ui: Row, key: string): Option<Value>
  {
    if Get(ui, key, Null).Null? then None else Some(ui[key])
  }

  /** A value only when it is truthy. */
  function GivenTruthy(ui: Row, key: string): Option<Value>
  {
    if Truthy(Get(ui, key, Null)) then Some(ui[key]) else None
  }

  function SummarizeQuery(ui: Row): Result<QuerySummary>
  {
    var lo, hi := Get(ui, "min_harga", Null), Get(ui, "max_harga", Null);
    var budget: Result<Option<(int, int)>> :=
      if lo.Null? && hi.Null? then Ok(None)
      else
        match (if lo.Null? then Ok(0) else IntOf(lo))
        case Err(e) => Err(e)
        case Ok(a) =>
          match (if hi.Null? then Ok(MAX_BUDGET) else IntOf(hi))
          case Err(e) => Err(e)
          case Ok(b) => Ok(Some((a, b)));
    match budget
    case Err(e) => Err(e)
    case Ok(bud) =>
      Ok(QuerySummary(bud, Given(ui, "ram"), Given(ui, "memori_internal"), Given(ui, "min_baterai"),
                      GivenTruthy(ui, "preferred_brands"), GivenTruthy(ui, "preferred_os")))
  }

  /**
   * The summary fails exactly when a budget bound is given but is not a
   * number. Otherwise it has a budget exactly when a bound is given, a
   * missing lower bound reads as 0 and a missing upper bound as 50,000,000.
   */
  lemma SummarizeQuerySpec(ui: Row)
    ensures var lo, hi := Get(ui, "min_harga", Null), Get(ui, "max_harga", Null);
      var r := SummarizeQuery(ui);
      && (r.Err? <==> (!lo.Null? && !IsFinite(lo)) || (!hi.Null? && !IsFinite(hi)))
      && (r.Ok? ==>
            && (r.value.budget.Some? <==> !lo.Null? || !hi.Null?)
            && (r.value.budget.Some? ==>
                  && r.value.budget.value.0 == (if lo.Null? then 0 else Trunc(AsReal(lo)))
                  && r.value.budget.value.1 == (if hi.Null? then MAX_BUDGET else Trunc(AsReal(hi)))))
  {
  }

  /** The filters `recommend` hands to `revise`. */
  function RevisionFilters(ui: Row): Row
  {
    map["preferred_brands" := Get(ui, "preferred_brands", Null),
        "preferred_os" := Get(ui, "preferred_os", Null),
        "only_in_stock" := Get(ui, "only_in_stock", Bool(false))]
  }

  /** Ranked from 1 in order, from most to least similar. */
  ghost predicate RankedDescending(rs: seq<Recommendation>)
  {
    && (forall i :: 0 <= i < |rs| ==> rs[i].rank == i + 1)
    && (forall i, j :: 0 <= i < j < |rs| ==> rs[i].similarityScore >= rs[j].similarityScore)
  }

  /** Reusing hits ordered by similarity gives recommendations ranked in that order. */
  lemma ReusedRanked(hits: seq<Hit>, prefs: Row, weights: Weights)
    requires forall i, j :: 0 <= i < j < |hits| ==> hits[i].similarity >= hits[j].similarity
    requires Reused(hits, prefs, weights).Ok?
    ensures RankedDescending(Reused(hits, prefs, weights).value)
  {
    ReusedSpec(hits, prefs, weights);
  }

  /** Revision keeps a ranked list ranked, with or without filters. */
  lemma RevisedRanked(recs: seq<Recommendation>, filters: Row)
    requires RankedDescending(recs) && Revised(recs, filters).Ok?
    ensures RankedDescending(Revised(recs, filters).value)
  {
    if filters != map[] {
      RevisedOrder(recs, filters);
    }
  }

  /** Keeping the first `k` of a ranked list keeps it ranked. */
  lemma TakeRanked(rs: seq<Recommendation>, k: int)
    requires RankedDescending(rs)
    ensures RankedDescending(Take(rs, k))
  {
    var t := Take(rs, k);
    assert forall i :: 0 <= i < |t| ==> t[i] == rs[i];
  }

  /** The response of `recommend`; its message and timestamp are not modelled. */
  datatype Response = Response(totalResults: nat, querySummary: QuerySummary, weightsUsed: Weights,
                               recommendations: seq<Recommendation>)

  /** What `recommend` makes of the retrieved hits: reuse, revision when asked, the first `top_k` and the summary. */
  function Respond(hits: seq<Hit>, ui: Row, weights: Weights, topK: int, applyFilters: bool): Result<Response>
  {
    match Reused(hits, ui, weights)
    case Err(e) => Err(e)
    case Ok(recs) =>
      match (if applyFilters then Revised(recs, RevisionFilters(ui)) else Ok(recs))
      case Err(e) => Err(e)
      case Ok(revised) =>
        var top := Take(revised, topK);
        match SummarizeQuery(ui)
        case Err(e) => Err(e)
        case Ok(summary) => Ok(Response(|top|, summary, weights, top))
  }

  /**
   * Hits ordered by similarity give a response of at most `top_k`
   * recommendations, ranked from 1 in order of non-increasing similarity,
   * whether or not the filters were applied, reporting the weights used.
   */
  lemma RespondSpec(hits: seq<Hit>, ui: Row, weights: Weights, topK: int, applyFilters: bool)
    requires forall i, j :: 0 <= i < j < |hits| ==> hits[i].similarity >= hits[j].similarity
    ensures Respond(hits, ui, weights, topK, applyFilters).Ok? ==>
      var resp := Respond(hits, ui, weights, topK, applyFilters).value;
      && resp.totalResults == |resp.recommendations|
      && (0 <= topK ==> |resp.recommendations| <= topK)
      && resp.weightsUsed == weights
      && RankedDescending(resp.recommendations)
  {
    if Respond(hits, ui, weights, topK, applyFilters).Ok? {
      ReusedRanked(hits, ui, weights);
      var recs := Reused(hits, ui, weights).value;
      if applyFilters {
        RevisedRanked(recs, RevisionFilters(ui));
      }
      var revised := if applyFilters then Revised(recs, RevisionFilters(ui)).value else recs;
      TakeRanked(revised, topK);
    }
  }

  /** The fields `retain` requires of a new case. */
  const RETAIN_FIELDS: seq<string> := ["Nama_hp", "Brand", "Harga", "Ram", "Memori_internal"]

  // ---------------------------------------------------------------- the engine

  /** The engine: the catalog as loaded, its normalised copy, the preprocessor fitted on it, and the distance calculator. */
  class Engine {
    var caseBase: Frame
    var caseBaseNormalized: Frame
    var dataLoader: Catalog.DataLoader?
    var isInitialized: bool
    const preprocessor: Preprocessing.Preprocessor
    /** Its `weights` are also the engine's: Python shares the one dict between them. */
    const calculator: Calculator

    ghost predicate Valid()
      reads this, preprocessor, calculator
    {
      preprocessor.Valid() && calculator.Valid() && (isInitialized ==> preprocessor.isFitted)
    }

    constructor Init(p: Preprocessing.Preprocessor, c: Calculator)
      requires p.Valid() && !p.isFitted && c.Valid()
      ensures Valid() && !isInitialized && preprocessor == p && calculator == c && dataLoader == null
      ensures caseBase == Frame([], []) && caseBaseNormalized == Frame([], [])
    {
      caseBase, caseBaseNormalized := Frame([], []), Frame([], []);
      dataLoader := null;
      isInitialized := false;
      preprocessor, calculator := p, c;
    }

    /**
     * `CBREngine(weights)`: no weights (or an empty dict) select the
     * configured defaults; the calculator sanitises them and fails where they
     * total zero.
     */
    static method Create(weights: Weights, sqrt: real -> real) returns (r: Result<Engine>)
      requires IsSqrt(sqrt) && DistinctKeys(weights)
      ensures var chosen := if weights == [] then Config.DEFAULT_WEIGHTS else weights;
        && (r.Ok? <==> Normalized(Sanitized(chosen)).Ok?)
        && (r.Ok? ==>
              && fresh(r.value) && fresh(r.value.preprocessor) && fresh(r.value.calculator)
              && r.value.Valid() && !r.value.isInitialized
              && r.value.calculator.weights == Sanitized(chosen) && r.value.calculator.Consistent() && r.value.calculator.sqrt == sqrt)
    {
      var chosen := if weights == [] then Config.DEFAULT_WEIGHTS else weights;
      Config.DefaultWeightsWellFormed();
      var p := new Preprocessing.Preprocessor();
      var c := Calculator.Create(chosen, sqrt);
      if c.Err? {
        return Err(c.error);
      }
      var e := new Engine.Init(p, c.value);
      r := Ok(e);
    }

    /**
     * `load_case_base`: loads and validates the catalog (read from its file
     * by the caller), fits the preprocessor on it and keeps the normalised
     * copy; the two frames then agree row by row on the phone id.
     */
    method LoadCaseBase(contents: Frame)
      requires Valid()
      modifies this, preprocessor
      ensures Valid() && isInitialized && preprocessor.isFitted
      ensures caseBase == contents
      ensures dataLoader != null && fresh(dataLoader) && dataLoader.df == contents && dataLoader.isLoaded
      ensures forall c :: c in Preprocessing.NUMERIC_COLUMNS && c in Preprocessing.PreparedColumns(contents.columns) ==>
        && c in preprocessor.minValues
        && preprocessor.minValues[c] == Preprocessing.ColumnMin(Preprocessing.PreparedColumn(contents, c))
        && preprocessor.maxValues[c] == Preprocessing.ColumnMax(Preprocessing.PreparedColumn(contents, c))
      ensures |caseBaseNormalized.rows| == |contents.rows|
      ensures caseBaseNormalized.columns == preprocessor.TransformedColumns(contents)
      ensures forall i, d :: 0 <= i < |contents.rows| ==>
        Get(caseBaseNormalized.rows[i], d, NaN) == preprocessor.TransformedCell(contents, i, d)
      ensures Aligned(caseBase.rows, caseBaseNormalized.rows)
    {
      var loader := new Catalog.DataLoader();
      var df := loader.Load(contents, true);
      dataLoader := loader;
      caseBase := df;
      preprocessor.Fit(caseBase);
      var t := preprocessor.Transform(caseBase);
      caseBaseNormalized := t.value;
      isInitialized := true;
      TransformKeepsIds(preprocessor, contents, caseBaseNormalized);
    }

    /** `get_weights`: the percentage weights the calculator holds. */
    method GetWeights() returns (w: Weights)
      ensures w == calculator.weights
    {
      w := calculator.weights;
    }

    /** `set_weights`: the calculator takes and sanitises the weights; normalising can fail. */
    method SetWeights(w: Weights) returns (r: Result<()>)
      requires Valid() && DistinctKeys(w)
      modifies calculator
      ensures Valid()
      ensures calculator.weights == Sanitized(w)
      ensures r.Ok? <==> Normalized(Sanitized(w)).Ok?
      ensures r.Ok? ==> calculator.Consistent()
    {
      r := calculator.SetWeights(w);
    }

    /**
     * `_prepare_query`: `None` and non-numeric values are dropped, keys are
     * mapped case-insensitively through the query table (unknown keys kept),
     * camera strings are parsed, and each number is normalised.
     */
    method PrepareQuery(query: seq<(string, Value)>) returns (r: Result<map<string, real>>)
      requires Valid()
      ensures r == preprocessor.NormalizedInput(QUERY_FIELDS, query)
      ensures r.Err? <==> !preprocessor.isFitted && exists j :: 0 <= j < |query| && Preprocessing.InputEntry(QUERY_FIELDS, query[j]).Some?
      ensures r.Ok? ==> forall c :: c in r.value <==> exists j :: 0 <= j < |query| && preprocessor.Writes(QUERY_FIELDS, query[j], c)
      ensures r.Ok? ==> forall j, c :: preprocessor.LastWriter(QUERY_FIELDS, query, |query|, j, c) ==>
        c in r.value && Some((c, r.value[c])) == preprocessor.NormalizedEntry(QUERY_FIELDS, query[j]).value
    {
      r := preprocessor.NormalizeEntries(QUERY_FIELDS, query);
      preprocessor.NormalizedInputSpec(QUERY_FIELDS, query);
    }

    /** `_extract_case_vector` on a row of a frame with columns `columns`. */
    method ExtractCaseVector(columns: seq<string>, row: Row) returns (v: map<string, real>)
      ensures v == CaseVector(columns, row)
      ensures forall a :: a in v <==> a in FEATURE_ATTRIBUTES && Preprocessing.NormName(a) in columns
      ensures forall a :: a in v && IsMissing(Get(row, Preprocessing.NormName(a), NaN)) ==> v[a] == 0.5
    {
      v := map[];
      for k := 0 to |FEATURE_ATTRIBUTES|
        invariant v == map a | a in FEATURE_ATTRIBUTES[..k] && Preprocessing.NormName(a) in columns ::
          FeatureValue(Get(row, Preprocessing.NormName(a), NaN))
      {
        var std := FEATURE_ATTRIBUTES[k];
        var col := Preprocessing.NormName(std);
        assert FEATURE_ATTRIBUTES[..k + 1] == FEATURE_ATTRIBUTES[..k] + [std];
        if col in columns {
          v := v[std := FeatureValue(Get(row, col, NaN))];
        }
      }
      assert FEATURE_ATTRIBUTES[..|FEATURE_ATTRIBUTES|] == FEATURE_ATTRIBUTES;
    }

    /** What `retrieve` returns for the current state. */
    function RetrieveResult(query: seq<(string, Value)>, topK: int, minSim: real): Result<seq<Hit>>
      reads this, preprocessor, calculator
      requires Valid()
    {
      if !isInitialized then Err("Case base belum dimuat. Panggil load_case_base() terlebih dahulu.")
      else
        match preprocessor.NormalizedInput(QUERY_FIELDS, query)
        case Err(e) => Err(e)
        case Ok(q) =>
          match Candidates(calculator.normalizedWeights, calculator.sqrt, q, caseBaseNormalized.columns,
                           caseBaseNormalized.rows, caseBase.rows, minSim)
          case Err(e) => Err(e)
          case Ok(hits) => Ok(Ranked(hits, topK))
    }

    /**
     * `retrieve`: fails before the case base is loaded; otherwise scores
     * every normalised row, keeps the passing ones with their original
     * records, and returns the `top_k` most similar.
     */
    method Retrieve(query: seq<(string, Value)>, topK: int, minSim: real) returns (r: Result<seq<Hit>>)
      requires Valid()
      ensures r == RetrieveResult(query, topK, minSim)
      ensures !isInitialized ==> r.Err?
    {
      if !isInitialized {
        return Err("Case base belum dimuat. Panggil load_case_base() terlebih dahulu.");
      }
      var q := PrepareQuery(query);
      assert q.Ok?;
      var w, sqrt, columns := calculator.normalizedWeights, calculator.sqrt, caseBaseNormalized.columns;
      var rows, base := caseBaseNormalized.rows, caseBase.rows;
      var results: seq<Hit> := [];
      for idx := 0 to |rows|
        invariant Candidates(w, sqrt, q.value, columns, rows[..idx], base, minSim) == Ok(results)
      {
        var v := ExtractCaseVector(columns, rows[idx]);
        var similarity := calculator.SimilarityOf(q.value, v);
        assert rows[..idx + 1][..idx] == rows[..idx];
        if similarity >= minSim {
          if idx >= |base| {
            assert Dangling(w, sqrt, q.value, columns, rows, base, minSim, idx);
            CandidatesFail(w, sqrt, q.value, columns, rows, base, minSim);
            return Err(OUT_OF_BOUNDS);
          }
          results := results + [Hit(idx, base[idx], similarity)];
        }
      }
      assert rows[..|rows|] == rows;
      results := Sort(results, ByHitDesc);
      r := Ok(Take(results, topK));
    }

    /**
     * Once loaded, retrieval on a catalog whose frames are aligned never
     * fails, and returns at most `top_k` hits, each above the threshold,
     * carrying the record the scored row belongs to, from most to least
     * similar with ties in catalog order; no passing case left out is more
     * similar than one returned.
     */
    lemma RetrieveSpec(query: seq<(string, Value)>, topK: int, minSim: real)
      requires Valid() && isInitialized && Aligned(caseBase.rows, caseBaseNormalized.rows)
      ensures var r := RetrieveResult(query, topK, minSim);
        && r.Ok?
        && (0 <= topK ==> |r.value| <= topK)
        && (forall k :: 0 <= k < |r.value| ==>
              && r.value[k].index < |caseBase.rows|
              && r.value[k].phone == caseBase.rows[r.value[k].index]
              && Key(r.value[k].phone) == Key(caseBaseNormalized.rows[r.value[k].index])
              && r.value[k].similarity >= minSim
              && r.value[k].similarity == CaseSimilarity(calculator.normalizedWeights, calculator.sqrt,
                   preprocessor.NormalizedInput(QUERY_FIELDS, query).value, caseBaseNormalized.columns,
                   caseBaseNormalized.rows[r.value[k].index]))
        && (forall i, j :: 0 <= i < j < |r.value| ==> r.value[i].similarity >= r.value[j].similarity)
        && (forall i, j :: 0 <= i < j < |r.value| && r.value[i].similarity == r.value[j].similarity ==>
              r.value[i].index < r.value[j].index)
    {
      preprocessor.NormalizedInputSpec(QUERY_FIELDS, query);
      var q := preprocessor.NormalizedInput(QUERY_FIELDS, query).value;
      var w, sqrt, columns := calculator.normalizedWeights, calculator.sqrt, caseBaseNormalized.columns;
      var rows, base := caseBaseNormalized.rows, caseBase.rows;
      CandidatesFail(w, sqrt, q, columns, rows, base, minSim);
      var hits := Candidates(w, sqrt, q, columns, rows, base, minSim).value;
      CandidatesSound(w, sqrt, q, columns, rows, base, minSim);
      RankedKeepsHits(hits, topK);
      RankedOrder(hits, topK);
      var r := Ranked(hits, topK);
      forall k | 0 <= k < |r| ensures Key(r[k].phone) == Key(rows[r[k].index]) {
        var m :| 0 <= m < |hits| && hits[m] == r[k];
      }
    }

    /** `_generate_explanations`, weighing contributions by the engine's weights. */
    method GenerateExplanations(phone: Row, prefs: Row) returns (r: Result<seq<Explanation>>)
      ensures r == Explained(phone, prefs, calculator.weights)
    {
      if prefs == map[] {
        return Ok([]);
      }
      var w := calculator.weights;
      var ms := ATTRIBUTE_MAPPINGS;
      ghost var step := ExplainStep(phone, prefs, w);
      var out: seq<Explanation> := [];
      for k := 0 to |ms|
        invariant Collect(ms[..k], step) == Ok(out)
      {
        var (prefKey, caseKey) := ms[k];
        var e := ExplanationFor(prefKey, caseKey, phone, prefs, w);
        CollectStep(ms, step, k, out);
        if e.Err? {
          CollectFailurePersists(ms, step, k + 1);
          return Err(e.error);
        }
        if e.value.Some? {
          out := out + [e.value.value];
        }
      }
      assert ms[..|ms|] == ms;
      r := Ok(out);
    }

    /** `reuse`: one recommendation per retrieved case, ranked from 1 in retrieval order. */
    method Reuse(retrieved: seq<Hit>, prefs: Row) returns (r: Result<seq<Recommendation>>)
      ensures r == Reused(retrieved, prefs, calculator.weights)
    {
      ghost var step := ReuseStep(prefs, calculator.weights);
      var recs: seq<Recommendation> := [];
      for k := 0 to |retrieved|
        invariant Collect(retrieved[..k], step) == Ok(recs)
      {
        CollectStep(retrieved, step, k, recs);
        var rec := RecommendHit(k + 1, retrieved[k], prefs);
        if rec.Err? {
          CollectFailurePersists(retrieved, step, k + 1);
          return Err(rec.error);
        }
        recs := recs + [rec.value];
      }
      assert retrieved[..|retrieved|] == retrieved;
      r := Ok(recs);
    }

    /** The body of the `reuse` loop for one retrieved case. */
    method RecommendHit(rank: int, h: Hit, prefs: Row) returns (r: Result<Recommendation>)
      ensures r == RecommendationFor(rank, h, prefs, calculator.weights)
    {
      var ex := GenerateExplanations(h.phone, prefs);
      if ex.Err? {
        return Err(ex.error);
      }
      var es := ex.value;
      assert Explained(h.phone, prefs, calculator.weights) == Ok(es);
      r := match Highlights(h.phone, prefs)
        case Err(e) => Err(e)
        case Ok(hs) => Ok(Recommendation(rank, h.phone, h.similarity, RoundTo(h.similarity * 100.0, 2), es, hs));
    }

    /**
     * `revise`: for non-empty filters, drops out-of-stock phones on request,
     * boosts preferred brands by 10% and the preferred OS by 5%, then
     * re-sorts by the adjusted similarity and re-ranks from 1.
     */
    method Revise(recs: seq<Recommendation>, filters: Row) returns (r: Result<seq<Recommendation>>)
      ensures r == Revised(recs, filters)
    {
      if filters == map[] {
        return Ok(recs);
      }
      var revised := recs;
      if Truthy(Get(filters, "only_in_stock", Bool(false))) {
        revised := Filter(revised, InStock);
      }
      var boosted := BoostAll(revised, filters);
      if boosted.Err? {
        return Err(boosted.error);
      }
      var ranked := Rerank(Sort(boosted.value, ByAdjustedScore));
      r := Ok(ranked);
    }

    /** The brand and OS loops of `revise`. */
    static method BoostAll(recs: seq<Recommendation>, filters: Row) returns (r: Result<seq<Recommendation>>)
      ensures r == Boosted(recs, filters)
    {
      var revised := recs;
      var brands := Get(filters, "preferred_brands", Null);
      if Truthy(brands) {
        var b := BoostLoop(revised, BrandStep(brands));
        if b.Err? {
          return Err(b.error);
        }
        revised := b.value;
      }
      var os := Get(filters, "preferred_os", Null);
      if Truthy(os) {
        if !os.Str? {
          return Err(NO_LOWER);
        }
        r := BoostLoop(revised, OsStep(Lower(os.s)));
      } else {
        r := Ok(revised);
      }
    }

    /** The final loop of `revise`: ranks from 1 in sorted order. */
    static method Rerank(sorted: seq<Recommendation>) returns (r: seq<Recommendation>)
      ensures r == Reranked(sorted)
    {
      r := sorted;
      for i := 0 to |r|
        invariant |r| == |sorted|
        invariant forall j :: 0 <= j < |r| ==> r[j] == if j < i then sorted[j].(rank := j + 1) else sorted[j]
      {
        r := r[i := r[i].(rank := i + 1)];
      }
    }

    /** One boost loop of `revise`: each recommendation in turn, stopping at the first exception. */
    static method BoostLoop(recs: seq<Recommendation>, step: (nat, Recommendation) -> Result<Option<Recommendation>>)
      returns (r: Result<seq<Recommendation>>)
      ensures r == Collect(recs, step)
    {
      var out: seq<Recommendation> := [];
      for k := 0 to |recs|
        invariant Collect(recs[..k], step) == Ok(out)
      {
        CollectStep(recs, step, k, out);
        var e := step(k, recs[k]);
        if e.Err? {
          CollectFailurePersists(recs, step, k + 1);
          return Err(e.error);
        }
        if e.value.Some? {
          out := out + [e.value.value];
        }
      }
      assert recs[..|recs|] == recs;
      r := Ok(out);
    }

    /** What `recommend` returns for the current state. */
    function Recommended(ui: Row, topK: int, minSim: real, applyFilters: bool): Result<Response>
      reads this, preprocessor, calculator
      requires Valid()
    {
      match RetrieveResult(ExtractQuery(ui), topK * 2, minSim)
      case Err(e) => Err(e)
      case Ok(hits) => Respond(hits, ui, calculator.weights, topK, applyFilters)
    }

    /**
     * `recommend`: retrieves twice `top_k` cases, reuses them with the user
     * input as preferences, revises them with the brand, OS and stock filters
     * when asked, keeps the first `top_k` and summarises the query.
     */
    method Recommend(ui: Row, topK: int, minSim: real, applyFilters: bool) returns (r: Result<Response>)
      requires Valid()
      ensures r == Recommended(ui, topK, minSim, applyFilters)
    {
      var query := ExtractQuery(ui);
      var retrieved := Retrieve(query, topK * 2, minSim);
      if retrieved.Err? {
        return Err(retrieved.error);
      }
      var recs := Reuse(retrieved.value, ui);
      if recs.Err? {
        return Err(recs.error);
      }
      var revised := recs.value;
      if applyFilters {
        var rv := Revise(revised, RevisionFilters(ui));
        if rv.Err? {
          return Err(rv.error);
        }
        revised := rv.value;
      }
      var top := Take(revised, topK);
      var summary := SummarizeQuery(ui);
      if summary.Err? {
        return Err(summary.error);
      }
      r := Ok(Response(|top|, summary.value, calculator.weights, top));
    }

    /**
     * Whatever retrieval returns, on any catalog, is ordered from most to
     * least similar, passes the threshold, and is a phone of the original
     * catalog.
     */
    lemma RetrieveSound(query: seq<(string, Value)>, topK: int, minSim: real)
      requires Valid() && RetrieveResult(query, topK, minSim).Ok?
      ensures var r := RetrieveResult(query, topK, minSim).value;
        && (0 <= topK ==> |r| <= topK)
        && (forall i, j :: 0 <= i < j < |r| ==> r[i].similarity >= r[j].similarity)
        && (forall k :: 0 <= k < |r| ==>
              && minSim <= r[k].similarity <= 1.0
              && r[k].index < |caseBase.rows| && r[k].phone == caseBase.rows[r[k].index])
    {
      var q := preprocessor.NormalizedInput(QUERY_FIELDS, query).value;
      var w, sqrt, columns := calculator.normalizedWeights, calculator.sqrt, caseBaseNormalized.columns;
      var hits := Candidates(w, sqrt, q, columns, caseBaseNormalized.rows, caseBase.rows, minSim).value;
      CandidatesSound(w, sqrt, q, columns, caseBaseNormalized.rows, caseBase.rows, minSim);
      RankedOrder(hits, topK);
      RankedKeepsHits(hits, topK);
      var r := Ranked(hits, topK);
      forall k | 0 <= k < |r|
        ensures minSim <= r[k].similarity <= 1.0 && r[k].index < |caseBase.rows| && r[k].phone == caseBase.rows[r[k].index]
      {
        var m :| 0 <= m < |hits| && hits[m] == r[k];
      }
    }

    /**
     * A response holds at most `top_k` recommendations, ranked from 1 in
     * order of non-increasing similarity, whether or not the filters were
     * applied, and reports the engine's weights. Nothing is recommended
     * before the case base is loaded.
     */
    lemma RecommendSpec(ui: Row, topK: int, minSim: real, applyFilters: bool)
      requires Valid()
      ensures !isInitialized ==> Recommended(ui, topK, minSim, applyFilters).Err?
      ensures Recommended(ui, topK, minSim, applyFilters).Ok? ==>
        var resp := Recommended(ui, topK, minSim, applyFilters).value;
        && resp.totalResults == |resp.recommendations|
        && (0 <= topK ==> |resp.recommendations| <= topK)
        && resp.weightsUsed == calculator.weights
        && RankedDescending(resp.recommendations)
    {
      if Recommended(ui, topK, minSim, applyFilters).Ok? {
        var query := ExtractQuery(ui);
        RetrieveSound(query, topK * 2, minSim);
        RespondSpec(RetrieveResult(query, topK * 2, minSim).value, ui, calculator.weights, topK, applyFilters);
      }
    }

    /**
     * `retain`: a new case missing one of the required fields is refused;
     * otherwise the data loader appends it (with a fresh id) and the case
     * base is reloaded from the catalog as saved.
     */
    method Retain(newCase: seq<(string, Value)>, file: Frame) returns (ok: bool)
      requires Valid()
      modifies this, preprocessor, dataLoader
      ensures Valid()
      ensures ok <==>
        && (forall f :: f in RETAIN_FIELDS ==> f in Catalog.RecordRow(newCase))
        && old(dataLoader) != null
        && "Id_hp" in (if old(dataLoader.isLoaded) then old(dataLoader.df) else file).columns
      ensures ok ==>
        var base := if old(dataLoader.isLoaded) then old(dataLoader.df) else file;
        && isInitialized
        && caseBase.rows == base.rows + [Catalog.RecordRow(newCase)["Id_hp" := Catalog.NextId(base.Column("Id_hp"))]]
        && caseBase.columns == Catalog.Extended(base.columns, newCase)
        && Aligned(caseBase.rows, caseBaseNormalized.rows)
      ensures !ok ==> caseBase == old(caseBase) && caseBaseNormalized == old(caseBaseNormalized) && isInitialized == old(isInitialized)
    {
      for k := 0 to |RETAIN_FIELDS|
        invariant forall j :: 0 <= j < k ==> RETAIN_FIELDS[j] in Catalog.RecordRow(newCase)
      {
        if RETAIN_FIELDS[k] !in Catalog.RecordRow(newCase) {
          assert RETAIN_FIELDS[k] in RETAIN_FIELDS;
          return false;
        }
      }
      if dataLoader == null {
        return false;
      }
      var added := dataLoader.AddNewCase(newCase, file);
      if added.Err? {
        return false;
      }
      LoadCaseBase(dataLoader.df);
      ok := true;
    }

    /** `get_statistics`: the data loader's statistics once the case base is loaded. */
    method GetStatistics() returns (r: Result<Catalog.Statistics>)
      requires Valid()
      ensures !isInitialized || dataLoader == null ==> r.Err?
      ensures isInitialized && dataLoader != null && dataLoader.isLoaded ==>
        (r.Err? <==> Catalog.PriceSummary(dataLoader.df).Err?)
      ensures r.Ok? ==> dataLoader != null && r.value.totalPhones == |dataLoader.df.rows| && r.value.columns == dataLoader.df.columns
    {
      if !isInitialized || dataLoader == null {
        return Err("Case base belum dimuat");
      }
      r := dataLoader.GetStatistics();
    }
  }

  // ---------------------------------------------------------------- alignment of the two frames

  /** The phone id of a record. */
  function Key(row: Row): Value { Get(row, "Id_hp", NaN) }

  /** The routes' `df['Id_hp'] == phone_id` on one cell: a number equal to the id (`True` is 1, `NaN` equals nothing). */
  predicate IdEquals(v: Value, id: int)
  {
    match v
    case Num(x) => x == id as real
    case Bool(b) => (if b then 1 else 0) == id
    case _ => false
  }

  predicate HasId(row: Row, id: int) { IdEquals(Key(row), id) }

  function WithId(id: int): Row -> bool { (row: Row) => HasId(row, id) }

  function NotWithId(id: int): Row -> bool { (row: Row) => !HasId(row, id) }

  /** The original and the normalised catalog describe the same phones, position by position. */
  ghost predicate Aligned(base: seq<Row>, normalized: seq<Row>)
  {
    |base| == |normalized| && forall i :: 0 <= i < |base| ==> Key(base[i]) == Key(normalized[i])
  }

  /** A normalised copy agrees with its frame row by row on the phone id. */
  lemma TransformKeepsIds(p: Preprocessing.Preprocessor, df: Frame, nf: Frame)
    requires p.Valid() && |nf.rows| == |df.rows|
    requires forall i, d :: 0 <= i < |df.rows| ==> Get(nf.rows[i], d, NaN) == p.TransformedCell(df, i, d)
    ensures Aligned(df.rows, nf.rows)
  {
    forall i | 0 <= i < |df.rows| ensures Key(df.rows[i]) == Key(nf.rows[i]) {
      IdSurvivesTransform(p, df, i);
    }
  }

  lemma IdSurvivesTransform(p: Preprocessing.Preprocessor, df: Frame, i: nat)
    requires i < |df.rows| && p.Valid()
    ensures p.TransformedCell(df, i, "Id_hp") == Key(df.rows[i])
  {
    IdIsNotScaled();
    IdIsNotFilled();
    Preprocessing.FilledKeepsOthers(df, i, "Id_hp");
  }

  lemma IdIsNotScaled()
    ensures Preprocessing.NormSource("Id_hp").None?
  {
    assert !Preprocessing.EndsWithNorm("Id_hp");
    forall c | c in Preprocessing.NUMERIC_COLUMNS ensures "Id_hp" != Preprocessing.NormName(c) {
      Preprocessing.NormNameEnds(c);
    }
  }

  lemma IdIsNotFilled()
    ensures "Id_hp" !in Preprocessing.FILL_PLAN && "Id_hp" != Preprocessing.CAMERA_NUM
  {
  }
}
