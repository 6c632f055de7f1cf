/**
 * Application settings that the model uses: the default weights the engine
 * and the evaluator start from, the recommendation defaults and the
 * evaluation scenarios.
 */
module Config {
  import opened Wrappers
  import opened Sorting
  import opened WeightedEuclidean

  /**
   * `settings.DEFAULT_WEIGHTS`. The camera weight is keyed by the raw column
   * `Resolusi_kamera`, while the feature vectors carry `Resolusi_kamera_num`.
   */
  const DEFAULT_WEIGHTS: Weights :=
    [("Harga", 25.0), ("Ram", 15.0), ("Memori_internal", 10.0), ("Kapasitas_baterai", 15.0),
     ("Resolusi_kamera", 15.0), ("Ukuran_layar", 5.0), ("Rating_pengguna", 15.0)]

  const SIMILARITY_THRESHOLD: real := 0.5
  const TOP_K_RECOMMENDATIONS: nat := 10

  /** `settings.TRAIN_TEST_SPLITS` as (train, test) percentages. */
  const TRAIN_TEST_SPLITS: seq<(nat, nat)> := [(70, 30), (80, 20)]

  /** The column name the feature vectors use for the camera. */
  const CAMERA_FEATURE: string := "Resolusi_kamera_num"

  /** The default weights total 100, have no zero, and so pass sanitising unchanged. */
  lemma DefaultWeightsWellFormed()
    ensures Total(DEFAULT_WEIGHTS) == 100.0 && InTolerance(Total(DEFAULT_WEIGHTS))
    ensures ZeroKeys(DEFAULT_WEIGHTS) == []
    ensures Sanitized(DEFAULT_WEIGHTS) == DEFAULT_WEIGHTS
    ensures DistinctKeys(DEFAULT_WEIGHTS)
  {
    var w := DEFAULT_WEIGHTS;
    assert w[..1][..0] == [] && w[..2][..1] == w[..1] && w[..3][..2] == w[..2] && w[..4][..3] == w[..3];
    assert w[..5][..4] == w[..4] && w[..6][..5] == w[..5] && w[..6] == w[..|w| - 1];
    assert Total(w[..1]) == 25.0 && ZeroKeys(w[..1]) == [];
    assert Total(w[..2]) == 40.0 && ZeroKeys(w[..2]) == [];
    assert Total(w[..3]) == 50.0 && ZeroKeys(w[..3]) == [];
    assert Total(w[..4]) == 65.0 && ZeroKeys(w[..4]) == [];
    assert Total(w[..5]) == 80.0 && ZeroKeys(w[..5]) == [];
    assert Total(w[..6]) == 85.0 && ZeroKeys(w[..6]) == [];
  }

  /**
   * Under the default weights the camera weight takes its 15% share of the
   * normaliser total, but the camera feature never enters the distance: the
   * normalised weights have no `Resolusi_kamera_num` key, so whatever query
   * and case hold there, the distance is the same.
   */
  lemma DefaultCameraWeightNeverApplies(query: map<string, real>, cse: map<string, real>, u: real, v: real)
    ensures Normalized(Sanitized(DEFAULT_WEIGHTS)).Ok?
    ensures var nw := Normalized(Sanitized(DEFAULT_WEIGHTS)).value;
      && WeightOf(nw, "Resolusi_kamera", 0.0) == 0.15
      && CAMERA_FEATURE !in Firsts(nw)
      && SquaredDistance(nw, query[CAMERA_FEATURE := u], cse[CAMERA_FEATURE := v]) == SquaredDistance(nw, query, cse)
  {
    DefaultWeightsWellFormed();
    var nw := Normalized(DEFAULT_WEIGHTS).value;
    assert nw[4] == ("Resolusi_kamera", 15.0 / 100.0);
    assert nw[5].0 == "Ukuran_layar" && nw[6].0 == "Rating_pengguna";
    assert nw[..6][..5][5 - 1] == nw[4];
    assert Firsts(nw) == ["Harga", "Ram", "Memori_internal", "Kapasitas_baterai", "Resolusi_kamera", "Ukuran_layar", "Rating_pengguna"];
    UnweightedAttributeIgnored(nw, query, cse, CAMERA_FEATURE, u, v);
  }
}
