/**
 * The admin routes: validating a weight update, the weight presets, the
 * dashboard's price segments, the new-phone request handed to `retain`, and
 * deleting a phone by id.
 */
module Admin {
  import opened Wrappers
  import opened Sorting
  import opened Values
  import opened WeightedEuclidean
  import CbrEngine
  import Catalog
  import Config

  // ---------------------------------------------------------------- weight updates

  /** The outcome of `WeightUpdateRequest.validate_weights`. */
  datatype WeightCheck = Accepted(weights: Weights) | BadTotal(total: real) | ZeroWeights(keys: seq<string>)

  /** `validate_weights`: the total must lie in [99, 101], checked first; then no weight may be 0. */
  function ValidateWeights(v: Weights): WeightCheck
  {
    var total := Total(v);
    if !InTolerance(total) then BadTotal(total)
    else
      var zeros := ZeroKeys(v);
      if zeros != [] then ZeroWeights(zeros) else Accepted(v)
  }

  /**
   * A weight map is accepted, unchanged, exactly when its total is within
   * tolerance and no weight is 0; a bad total is reported even when there
   * are zeros as well; a rejection for zeros names exactly the zero keys.
   */
  lemma ValidateWeightsSpec(v: Weights)
    ensures ValidateWeights(v).Accepted? <==> InTolerance(Total(v)) && forall i :: 0 <= i < |v| ==> v[i].1 != 0.0
    ensures ValidateWeights(v).Accepted? ==> ValidateWeights(v).weights == v
    ensures !InTolerance(Total(v)) ==> ValidateWeights(v) == BadTotal(Total(v))
    ensures ValidateWeights(v).ZeroWeights? ==>
      InTolerance(Total(v)) &&
      forall k :: k in ValidateWeights(v).keys <==> exists i :: 0 <= i < |v| && v[i].0 == k && v[i].1 == 0.0
  {
    if InTolerance(Total(v)) {
      if ZeroKeys(v) != [] {
        assert ZeroKeys(v)[0] in ZeroKeys(v);
      }
      forall i | 0 <= i < |v| && v[i].1 == 0.0 ensures ZeroKeys(v) != [] {
        assert v[i].0 in ZeroKeys(v);
      }
    }
  }

  /**
   * Accepted weights pass the calculator's own sanitising unchanged and
   * always normalise, since their total is at least 99.
   */
  lemma AcceptedWeightsAreKept(v: Weights)
    requires ValidateWeights(v).Accepted?
    ensures Sanitized(v) == v
    ensures Normalized(v).Ok?
  {
    ValidateWeightsSpec(v);
    assert forall i :: 0 <= i < |v| ==> Sanitized(v)[i] == v[i];
  }

  /**
   * Validation checks only the total and zeros, so it accepts a negative
   * weight. Such a weight makes the weighted squared sum negative, and
   * `np.sqrt` of it is `NaN` in the source: there is no real distance.
   */
  lemma MixedSignWeightsAccepted()
    ensures var v := [("Harga", 150.0), ("Ram", -50.0)];
      && ValidateWeights(v).Accepted?
      && Normalized(v) == Ok([("Harga", 1.5), ("Ram", -0.5)])
      && SquaredDistance(Normalized(v).value, map["Harga" := 0.5, "Ram" := 1.0], map["Harga" := 0.5, "Ram" := 0.0]) == -0.5
  {
    var v := [("Harga", 150.0), ("Ram", -50.0)];
    assert Total(v[..1]) == 150.0;
    ValidateWeightsSpec(v);
    var n := [("Harga", 1.5), ("Ram", -0.5)];
    assert Divided(v, 100.0) == n;
    var q, c := map["Harga" := 0.5, "Ram" := 1.0], map["Harga" := 0.5, "Ram" := 0.0];
    assert n[..1] == [("Harga", 1.5)] && [("Harga", 1.5)][..0] == [];
    assert SquaredDistance(n[..1], q, c) == 0.0;
  }

  /**
   * `update_weights`: a request whose weights fail validation is refused
   * before the engine is touched; otherwise the engine takes the weights
   * as given, and the old ones are returned.
   */
  method UpdateWeights(engine: CbrEngine.Engine, v: Weights) returns (r: Result<Weights>)
    requires engine.Valid() && DistinctKeys(v)
    modifies engine.calculator
    ensures engine.Valid()
    ensures r.Ok? <==> ValidateWeights(v).Accepted?
    ensures r.Ok? ==> r.value == old(engine.calculator.weights) && engine.calculator.weights == v && engine.calculator.Consistent()
    ensures r.Err? ==> unchanged(engine.calculator)
  {
    var check := ValidateWeights(v);
    if !check.Accepted? {
      return Err("weights rejected");
    }
    var old_weights := engine.GetWeights();
    AcceptedWeightsAreKept(v);
    var _ := engine.SetWeights(v);
    r := Ok(old_weights);
  }

  /** `reset_weights`: the engine goes back to the configured defaults, which it keeps as they are. */
  method ResetWeights(engine: CbrEngine.Engine) returns (r: Result<Weights>)
    requires engine.Valid()
    modifies engine.calculator
    ensures engine.Valid()
    ensures r.Ok? && r.value == old(engine.calculator.weights)
    ensures engine.calculator.weights == Config.DEFAULT_WEIGHTS && engine.calculator.Consistent()
  {
    var old_weights := engine.GetWeights();
    Config.DefaultWeightsWellFormed();
    assert Normalized(Config.DEFAULT_WEIGHTS).Ok?;
    var _ := engine.SetWeights(Config.DEFAULT_WEIGHTS);
    r := Ok(old_weights);
  }

  // ---------------------------------------------------------------- weight presets

  datatype Preset = Preset(id: string, name: string, description: string, weights: Weights)

  /** The seven features the presets weigh, in their order. */
  const PRESET_KEYS: seq<string> :=
    ["Harga", "Ram", "Memori_internal", "Kapasitas_baterai", "Resolusi_kamera_num", "Ukuran_layar", "Rating_pengguna"]

  function PresetWeights(values: seq<real>): (w: Weights)
    requires |values| == |PRESET_KEYS|
    ensures |w| == |PRESET_KEYS| && forall i :: 0 <= i < |w| ==> w[i] == (PRESET_KEYS[i], values[i])
  {
    seq(|PRESET_KEYS|, i requires 0 <= i < |PRESET_KEYS| => (PRESET_KEYS[i], values[i]))
  }

  /** `get_weight_presets`. */
  const PRESETS: seq<Preset> := [
    Preset("balanced", "Seimbang", "Bobot seimbang untuk semua atribut",
      PresetWeights([15.0, 15.0, 15.0, 15.0, 15.0, 10.0, 15.0])),
    Preset("budget_focused", "Fokus Budget", "Prioritas utama adalah harga terjangkau",
      PresetWeights([40.0, 15.0, 10.0, 10.0, 10.0, 5.0, 10.0])),
    Preset("performance", "Performa Tinggi", "Prioritas RAM dan storage untuk gaming/multitasking",
      PresetWeights([10.0, 30.0, 25.0, 15.0, 5.0, 5.0, 10.0])),
    Preset("photography", "Fotografi", "Prioritas kamera untuk content creator",
      PresetWeights([15.0, 10.0, 15.0, 15.0, 35.0, 5.0, 5.0])),
    Preset("battery_life", "Daya Tahan Baterai", "Prioritas baterai untuk mobilitas tinggi",
      PresetWeights([15.0, 10.0, 10.0, 35.0, 10.0, 10.0, 10.0]))
  ]

  /** The total of seven weights, written out. */
  lemma TotalOfSeven(w: Weights)
    requires |w| == 7
    ensures Total(w) == w[0].1 + w[1].1 + w[2].1 + w[3].1 + w[4].1 + w[5].1 + w[6].1
  {
    assert w[..1][..0] == [] && w[..2][..1] == w[..1] && w[..3][..2] == w[..2] && w[..4][..3] == w[..3];
    assert w[..5][..4] == w[..4] && w[..6][..5] == w[..5] && w[..7][..6] == w[..6] && w[..7] == w;
    assert Total(w[..1]) == w[0].1;
    assert Total(w[..2]) == w[0].1 + w[1].1;
    assert Total(w[..3]) == w[0].1 + w[1].1 + w[2].1;
    assert Total(w[..4]) == w[0].1 + w[1].1 + w[2].1 + w[3].1;
    assert Total(w[..5]) == w[0].1 + w[1].1 + w[2].1 + w[3].1 + w[4].1;
    assert Total(w[..6]) == w[0].1 + w[1].1 + w[2].1 + w[3].1 + w[4].1 + w[5].1;
  }

  /** Seven positive preset weights totalling 100 are accepted. */
  lemma PresetAccepted(values: seq<real>)
    requires |values| == 7 && values[0] + values[1] + values[2] + values[3] + values[4] + values[5] + values[6] == 100.0
    requires forall i :: 0 <= i < 7 ==> values[i] > 0.0
    ensures Total(PresetWeights(values)) == 100.0 && ValidateWeights(PresetWeights(values)) == Accepted(PresetWeights(values))
  {
    TotalOfSeven(PresetWeights(values));
    ValidateWeightsSpec(PresetWeights(values));
  }

  /**
   * Every preset weighs the seven features, its weights total exactly 100
   * with no zero, so it passes `validate_weights` as it is.
   */
  lemma PresetsAccepted()
    ensures forall p :: p in PRESETS ==>
      && |p.weights| == |PRESET_KEYS|
      && (forall i :: 0 <= i < |p.weights| ==> p.weights[i].0 == PRESET_KEYS[i] && p.weights[i].1 > 0.0)
      && Total(p.weights) == 100.0
      && ValidateWeights(p.weights) == Accepted(p.weights)
  {
    PresetAccepted([15.0, 15.0, 15.0, 15.0, 15.0, 10.0, 15.0]);
    PresetAccepted([40.0, 15.0, 10.0, 10.0, 10.0, 5.0, 10.0]);
    PresetAccepted([10.0, 30.0, 25.0, 15.0, 5.0, 5.0, 10.0]);
    PresetAccepted([15.0, 10.0, 15.0, 15.0, 35.0, 5.0, 5.0]);
    PresetAccepted([15.0, 10.0, 10.0, 35.0, 10.0, 10.0, 10.0]);
  }

  /**
   * Unlike the default weights, the presets key the camera weight by the
   * feature column, so under a preset the camera does enter the distance.
   */
  lemma PresetsWeighTheCamera()
    ensures forall p :: p in PRESETS ==> Config.CAMERA_FEATURE in Firsts(p.weights)
  {
    forall p | p in PRESETS ensures Config.CAMERA_FEATURE in Firsts(p.weights) {
      assert p.weights[4].0 == Config.CAMERA_FEATURE;
      KeysHas(p.weights, 4);
    }
  }

  lemma {:induction false} KeysHas(w: Weights, i: nat)
    requires i < |w|
    ensures w[i].0 in Firsts(w)
  {
    if i < |w| - 1 {
      assert w[..|w| - 1][i] == w[i];
      KeysHas(w[..|w| - 1], i);
    }
  }

  // ---------------------------------------------------------------- price segments

  /** The dashboard's five price segments, in increasing order of price. */
  datatype Segment = Below2M | From2To5M | From5To10M | From10To15M | Above15M

  /** The strict upper bounds of the first four segments, in rupiah. */
  const SEGMENT_BOUNDS: seq<real> := [2000000.0, 5000000.0, 10000000.0, 15000000.0]

  function SegmentIndex(s: Segment): (k: nat)
    ensures k < 5
  {
    match s
    case Below2M => 0
    case From2To5M => 1
    case From5To10M => 2
    case From10To15M => 3
    case Above15M => 4
  }

  /** `get_price_segment`. */
  function PriceSegment(price: real): Segment
  {
    if price < 2000000.0 then Below2M
    else if price < 5000000.0 then From2To5M
    else if price < 10000000.0 then From5To10M
    else if price < 15000000.0 then From10To15M
    else Above15M
  }

  /** The segment of a price cell: `NaN` fails every comparison and lands in the top segment. */
  function CellSegment(v: Value): Result<Segment>
  {
    match v
    case Num(x) => Ok(PriceSegment(x))
    case Bool(b) => Ok(PriceSegment(if b then 1.0 else 0.0))
    case NaN => Ok(Above15M)
    case _ => Err("'<' not supported")
  }

  /** The label the dashboard shows for a segment. */
  function SegmentLabel(s: Segment): string
  {
    match s
    case Below2M => "< 2 Juta"
    case From2To5M => "2-5 Juta"
    case From5To10M => "5-10 Juta"
    case From10To15M => "10-15 Juta"
    case Above15M => "> 15 Juta"
  }

  /**
   * A price lies in segment `k` exactly when it is at least the bound below
   * `k` and strictly under the bound above it.
   */
  lemma PriceSegmentSpec(price: real, k: nat)
    requires k < 5
    ensures SegmentIndex(PriceSegment(price)) == k <==>
      (k == 0 || SEGMENT_BOUNDS[k - 1] <= price) && (k == 4 || price < SEGMENT_BOUNDS[k])
  {
  }

  /** A higher price never lands in a lower segment. */
  lemma PriceSegmentMonotone(p: real, q: real)
    requires p <= q
    ensures SegmentIndex(PriceSegment(p)) <= SegmentIndex(PriceSegment(q))
  {
  }

  /** The five labels are distinct, so the segment counts never merge two segments. */
  lemma SegmentLabelsDistinct(s: Segment, t: Segment)
    ensures SegmentLabel(s) == SegmentLabel(t) <==> s == t
  {
  }

  function SegmentCount(prices: seq<real>, s: Segment): nat
  {
    CountIf(prices, (p: real) => PriceSegment(p) == s)
  }

  /** `value_counts` over the segments: every price is counted in exactly one segment. */
  lemma {:induction false} SegmentCountsPartition(prices: seq<real>)
    ensures SegmentCount(prices, Below2M) + SegmentCount(prices, From2To5M) + SegmentCount(prices, From5To10M)
      + SegmentCount(prices, From10To15M) + SegmentCount(prices, Above15M) == |prices|
  {
    if prices != [] {
      SegmentCountsPartition(prices[1..]);
    }
  }

  // ---------------------------------------------------------------- new phones

  /** `NewPhoneRequest`; `tahun_rilis` may be absent. */
  datatype NewPhoneRequest = NewPhoneRequest(
    namaHp: string, brand: string, harga: int, ram: int, memoriInternal: int, ukuranLayar: real,
    resolusiKamera: string, kapasitasBaterai: int, os: string, ratingPengguna: real,
    tahunRilis: Option<string>, stokTersedia: bool)

  /** The request's field bounds. */
  predicate Admissible(r: NewPhoneRequest)
  {
    && |r.namaHp| >= 2
    && r.harga >= 0
    && r.ram >= 1
    && r.memoriInternal >= 8
    && 4.0 <= r.ukuranLayar <= 10.0
    && r.kapasitasBaterai >= 1000
    && 0.0 <= r.ratingPengguna <= 5.0
  }

  /** `phone.tahun_rilis or <current year>`: an absent or empty year falls back to the current one. */
  function ReleaseYear(r: NewPhoneRequest, currentYear: string): string
  {
    if r.tahunRilis.Some? && r.tahunRilis.value != "" then r.tahunRilis.value else currentYear
  }

  /** The record `add_new_phone` hands to `retain`, in the source's key order. */
  function PhoneData(r: NewPhoneRequest, currentYear: string): seq<(string, Value)>
  {
    [("Nama_hp", Str(r.namaHp)), ("Brand", Str(r.brand)), ("Harga", Num(r.harga as real)),
     ("Ram", Num(r.ram as real)), ("Memori_internal", Num(r.memoriInternal as real)),
     ("Ukuran_layar", Num(r.ukuranLayar)), ("Resolusi_kamera", Str(r.resolusiKamera)),
     ("Kapasitas_baterai", Num(r.kapasitasBaterai as real)), ("Os", Str(r.os)),
     ("Rating_pengguna", Num(r.ratingPengguna)), ("Tahun_rilis", Str(ReleaseYear(r, currentYear))),
     ("Stok_tersedia", Bool(r.stokTersedia))]
  }

  /** The record's keys are distinct. */
  lemma PhoneDataKeysDistinct(r: NewPhoneRequest, currentYear: string)
    ensures var d := PhoneData(r, currentYear); forall j, k :: 0 <= j < k < |d| ==> d[j].0 != d[k].0
  {
    var keys := seq(12, i requires 0 <= i < 12 => PhoneData(r, currentYear)[i].0);
    assert keys == ["Nama_hp", "Brand", "Harga", "Ram", "Memori_internal", "Ukuran_layar", "Resolusi_kamera",
                    "Kapasitas_baterai", "Os", "Rating_pengguna", "Tahun_rilis", "Stok_tersedia"];
  }

  /** The record of a new phone carries every field `retain` requires, and its values are the request's. */
  lemma PhoneDataSpec(r: NewPhoneRequest, currentYear: string)
    ensures var row := Catalog.RecordRow(PhoneData(r, currentYear));
      && (forall f :: f in CbrEngine.RETAIN_FIELDS ==> f in row)
      && "Nama_hp" in row && "Brand" in row && "Harga" in row && "Tahun_rilis" in row
      && row["Nama_hp"] == Str(r.namaHp) && row["Brand"] == Str(r.brand) && row["Harga"] == Num(r.harga as real)
      && row["Tahun_rilis"] == Str(ReleaseYear(r, currentYear))
  {
    var d := PhoneData(r, currentYear);
    PhoneDataKeysDistinct(r, currentYear);
    NamedFieldsHeld(d);
  }

  /** A record with distinct keys, the required fields first and the year at position 10, holds them all. */
  lemma NamedFieldsHeld(d: seq<(string, Value)>)
    requires |d| == 12 && forall j, k :: 0 <= j < k < |d| ==> d[j].0 != d[k].0
    requires d[0].0 == "Nama_hp" && d[1].0 == "Brand" && d[2].0 == "Harga" && d[3].0 == "Ram"
      && d[4].0 == "Memori_internal" && d[10].0 == "Tahun_rilis"
    ensures var row := Catalog.RecordRow(d);
      && (forall f :: f in CbrEngine.RETAIN_FIELDS ==> f in row)
      && "Nama_hp" in row && "Brand" in row && "Harga" in row && "Tahun_rilis" in row
      && row["Nama_hp"] == d[0].1 && row["Brand"] == d[1].1 && row["Harga"] == d[2].1 && row["Tahun_rilis"] == d[10].1
  {
    RetainFieldsPresent(d);
    Catalog.RecordRowHolds(d, 0);
    Catalog.RecordRowHolds(d, 1);
    Catalog.RecordRowHolds(d, 2);
    Catalog.RecordRowHolds(d, 10);
  }

  lemma RetainFieldsPresent(d: seq<(string, Value)>)
    requires |d| == 12
    requires d[0].0 == "Nama_hp" && d[1].0 == "Brand" && d[2].0 == "Harga" && d[3].0 == "Ram" && d[4].0 == "Memori_internal"
    ensures forall f :: f in CbrEngine.RETAIN_FIELDS ==> f in Catalog.RecordRow(d)
  {
    var row := Catalog.RecordRow(d);
    assert d[0].0 in row && d[1].0 in row && d[2].0 in row && d[3].0 in row && d[4].0 in row;
  }

  /**
   * `add_new_phone`: a request outside the field bounds is refused before
   * the engine sees it; an admissible one always has the fields `retain`
   * checks, so it is added exactly when the engine has a catalog with an id
   * column. The new phone then ends the engine's case base, and the record
   * returned is the request's with the id that `add_new_case` writes into
   * the same dict.
   */
  method AddNewPhone(engine: CbrEngine.Engine, r: NewPhoneRequest, currentYear: string, file: Frame)
    returns (res: Result<seq<(string, Value)>>)
    requires engine.Valid()
    modifies engine, engine.preprocessor, engine.dataLoader
    ensures engine.Valid()
    ensures res.Ok? <==>
      && Admissible(r)
      && old(engine.dataLoader) != null
      && "Id_hp" in (if old(engine.dataLoader.isLoaded) then old(engine.dataLoader.df) else file).columns
    ensures res.Ok? ==>
      var base := if old(engine.dataLoader.isLoaded) then old(engine.dataLoader.df) else file;
      var id := Catalog.NextId(base.Column("Id_hp"));
      && res.value == PhoneData(r, currentYear) + [("Id_hp", id)]
      && engine.isInitialized
      && engine.caseBase.rows == base.rows + [Catalog.RecordRow(PhoneData(r, currentYear))["Id_hp" := id]]
      && engine.caseBase.columns == Catalog.Extended(base.columns, PhoneData(r, currentYear))
      && CbrEngine.Aligned(engine.caseBase.rows, engine.caseBaseNormalized.rows)
    ensures res.Err? ==>
      && engine.caseBase == old(engine.caseBase) && engine.caseBaseNormalized == old(engine.caseBaseNormalized)
      && engine.isInitialized == old(engine.isInitialized)
  {
    if !Admissible(r) {
      return Err("request outside the field bounds");
    }
    var data := PhoneData(r, currentYear);
    PhoneDataSpec(r, currentYear);
    var id := NaN;
    if engine.dataLoader != null {
      var base := if engine.dataLoader.isLoaded then engine.dataLoader.df else file;
      id := Catalog.NextId(base.Column("Id_hp"));
    }
    var ok := engine.Retain(data, file);
    if !ok {
      return Err("Gagal menambahkan HP baru");
    }
    res := Ok(data + [("Id_hp", id)]);
  }

  // ---------------------------------------------------------------- deleting a phone

  /** `df[df['Id_hp'] != phone_id]`: the rows without the id, in their order. */
  function Without(rows: seq<Row>, id: int): (r: seq<Row>)
    ensures forall row :: row in r <==> row in rows && !CbrEngine.HasId(row, id)
  {
    Filter(rows, CbrEngine.NotWithId(id))
  }

  /** The outcome of `delete_phone`. */
  datatype Deletion = Deleted | NotFound | Failed(reason: string)

  /** No row matches the id exactly when no row has it. */
  lemma NoMatchIff(rows: seq<Row>, id: int)
    ensures Filter(rows, CbrEngine.WithId(id)) == [] <==> forall i :: 0 <= i < |rows| ==> !CbrEngine.HasId(rows[i], id)
  {
    var matches := Filter(rows, CbrEngine.WithId(id));
    if matches == [] {
      forall i | 0 <= i < |rows| ensures !CbrEngine.HasId(rows[i], id) {
        assert rows[i] in rows;
      }
    } else {
      assert matches[0] in matches;
    }
  }

  /** Removing a row that has the id makes the sequence shorter. */
  lemma {:induction false} WithoutShrinks(rows: seq<Row>, id: int, i: nat)
    requires i < |rows| && CbrEngine.HasId(rows[i], id)
    ensures |Without(rows, id)| < |rows|
  {
    if i > 0 {
      assert rows[1..][i - 1] == rows[i];
      WithoutShrinks(rows[1..], id, i - 1);
    } else {
      assert |Filter(rows[1..], CbrEngine.NotWithId(id))| <= |rows[1..]|;
    }
  }

  /** Removing an id from both frames of an aligned catalog keeps them aligned. */
  lemma {:induction false} WithoutKeepsAligned(base: seq<Row>, normalized: seq<Row>, id: int)
    requires CbrEngine.Aligned(base, normalized)
    ensures CbrEngine.Aligned(Without(base, id), Without(normalized, id))
  {
    if base != [] {
      assert CbrEngine.Key(base[0]) == CbrEngine.Key(normalized[0]);
      assert CbrEngine.Aligned(base[1..], normalized[1..]) by {
        forall i | 0 <= i < |base[1..]| ensures CbrEngine.Key(base[1..][i]) == CbrEngine.Key(normalized[1..][i]) {
          assert base[1..][i] == base[i + 1] && normalized[1..][i] == normalized[i + 1];
        }
      }
      WithoutKeepsAligned(base[1..], normalized[1..], id);
      var tb, tn := Without(base[1..], id), Without(normalized[1..], id);
      if CbrEngine.HasId(base[0], id) {
        assert Without(base, id) == tb && Without(normalized, id) == tn;
      } else {
        assert Without(base, id) == [base[0]] + tb && Without(normalized, id) == [normalized[0]] + tn;
        forall i | 0 <= i < |tb| + 1
          ensures CbrEngine.Key(([base[0]] + tb)[i]) == CbrEngine.Key(([normalized[0]] + tn)[i])
        {
          if i > 0 {
            assert ([base[0]] + tb)[i] == tb[i - 1] && ([normalized[0]] + tn)[i] == tn[i - 1];
          }
        }
      }
    }
  }

  /**
   * `delete_phone` as written: it filters the original catalog (and the
   * loader's copy) but leaves the normalised frame that retrieval scores as
   * it was.
   */
  method DeletePhoneAsWritten(engine: CbrEngine.Engine, id: int) returns (r: Deletion)
    requires engine.Valid()
    modifies engine, engine.dataLoader
    ensures engine.Valid()
    ensures !old(engine.isInitialized) || "Id_hp" !in old(engine.caseBase.columns) ==> r.Failed?
    ensures old(engine.isInitialized) && "Id_hp" in old(engine.caseBase.columns) ==>
      !r.Failed? && (r == NotFound <==> forall i :: 0 <= i < |old(engine.caseBase.rows)| ==> !CbrEngine.HasId(old(engine.caseBase.rows)[i], id))
    ensures r == Deleted ==>
      && engine.caseBase == Frame(old(engine.caseBase.columns), Without(old(engine.caseBase.rows), id))
      && (engine.dataLoader != null ==> engine.dataLoader.df == engine.caseBase)
    ensures r != Deleted ==> engine.caseBase == old(engine.caseBase)
    ensures engine.caseBaseNormalized == old(engine.caseBaseNormalized)
    ensures engine.dataLoader == old(engine.dataLoader) && engine.isInitialized == old(engine.isInitialized)
    ensures old(engine.dataLoader) != null ==>
      && engine.dataLoader.isLoaded == old(engine.dataLoader.isLoaded)
      && engine.dataLoader.validationErrors == old(engine.dataLoader.validationErrors)
      && (r != Deleted ==> engine.dataLoader.df == old(engine.dataLoader.df))
  {
    if !engine.isInitialized {
      return Failed("case base not loaded");
    }
    if "Id_hp" !in engine.caseBase.columns {
      return Failed("no Id_hp column");
    }
    var matches := Filter(engine.caseBase.rows, CbrEngine.WithId(id));
    NoMatchIff(engine.caseBase.rows, id);
    if matches == [] {
      return NotFound;
    }
    engine.caseBase := Frame(engine.caseBase.columns, Without(engine.caseBase.rows, id));
    if engine.dataLoader != null {
      engine.dataLoader.df := engine.caseBase;
    }
    r := Deleted;
  }

  /**
   * After the deletion as written, the normalised frame still has a row for
   * the deleted phone, so the two frames no longer line up.
   */
  lemma StaleFrameMisaligned(base: seq<Row>, normalized: seq<Row>, id: int, i: nat)
    requires CbrEngine.Aligned(base, normalized)
    requires i < |base| && CbrEngine.HasId(base[i], id)
    ensures !CbrEngine.Aligned(Without(base, id), normalized)
    ensures |Without(base, id)| < |normalized|
  {
    WithoutShrinks(base, id, i);
  }

  /**
   * The next retrieval then fails whenever the last normalised row passes
   * the threshold: its position no longer exists in the filtered catalog
   * (`iloc` raises an index error).
   */
  lemma StaleFrameBreaksRetrieval(w: Weights, sqrt: real -> real, query: map<string, real>, columns: seq<string>,
                                  base: seq<Row>, normalized: seq<Row>, minSim: real, id: int, i: nat)
    requires IsSqrt(sqrt)
    requires CbrEngine.Aligned(base, normalized)
    requires i < |base| && CbrEngine.HasId(base[i], id)
    requires CbrEngine.CaseSimilarity(w, sqrt, query, columns, normalized[|normalized| - 1]) >= minSim
    ensures CbrEngine.Candidates(w, sqrt, query, columns, normalized, Without(base, id), minSim).Err?
  {
    WithoutShrinks(base, id, i);
    CbrEngine.CandidatesFail(w, sqrt, query, columns, normalized, Without(base, id), minSim);
    assert CbrEngine.Dangling(w, sqrt, query, columns, normalized, Without(base, id), minSim, |normalized| - 1);
  }

  /**
   * `delete_phone` corrected: the phone leaves the normalised frame as well,
   * so an aligned catalog stays aligned and retrieval keeps pairing every
   * score with its own phone.
   */
  method DeletePhone(engine: CbrEngine.Engine, id: int) returns (r: Deletion)
    requires engine.Valid()
    modifies engine, engine.dataLoader
    ensures engine.Valid()
    ensures !old(engine.isInitialized) || "Id_hp" !in old(engine.caseBase.columns) ==> r.Failed?
    ensures old(engine.isInitialized) && "Id_hp" in old(engine.caseBase.columns) ==>
      !r.Failed? && (r == NotFound <==> forall i :: 0 <= i < |old(engine.caseBase.rows)| ==> !CbrEngine.HasId(old(engine.caseBase.rows)[i], id))
    ensures r == Deleted ==>
      && engine.caseBase == Frame(old(engine.caseBase.columns), Without(old(engine.caseBase.rows), id))
      && engine.caseBaseNormalized == Frame(old(engine.caseBaseNormalized.columns), Without(old(engine.caseBaseNormalized.rows), id))
      && (engine.dataLoader != null ==> engine.dataLoader.df == engine.caseBase)
    ensures r != Deleted ==> engine.caseBase == old(engine.caseBase) && engine.caseBaseNormalized == old(engine.caseBaseNormalized)
    ensures engine.dataLoader == old(engine.dataLoader) && engine.isInitialized == old(engine.isInitialized)
    ensures old(engine.dataLoader) != null ==>
      && engine.dataLoader.isLoaded == old(engine.dataLoader.isLoaded)
      && engine.dataLoader.validationErrors == old(engine.dataLoader.validationErrors)
      && (r != Deleted ==> engine.dataLoader.df == old(engine.dataLoader.df))
    ensures CbrEngine.Aligned(old(engine.caseBase.rows), old(engine.caseBaseNormalized.rows)) ==>
      CbrEngine.Aligned(engine.caseBase.rows, engine.caseBaseNormalized.rows)
  {
    if !engine.isInitialized {
      return Failed("case base not loaded");
    }
    if "Id_hp" !in engine.caseBase.columns {
      return Failed("no Id_hp column");
    }
    var matches := Filter(engine.caseBase.rows, CbrEngine.WithId(id));
    NoMatchIff(engine.caseBase.rows, id);
    if matches == [] {
      return NotFound;
    }
    var base := Frame(engine.caseBase.columns, Without(engine.caseBase.rows, id));
    var normalized := Frame(engine.caseBaseNormalized.columns, Without(engine.caseBaseNormalized.rows, id));
    ghost var keepsAligned := CbrEngine.Aligned(engine.caseBase.rows, engine.caseBaseNormalized.rows) ==>
      CbrEngine.Aligned(base.rows, normalized.rows);
    assert keepsAligned by {
      if CbrEngine.Aligned(engine.caseBase.rows, engine.caseBaseNormalized.rows) {
        WithoutKeepsAligned(engine.caseBase.rows, engine.caseBaseNormalized.rows, id);
      }
    }
    engine.caseBase, engine.caseBaseNormalized := base, normalized;
    if engine.dataLoader != null {
      engine.dataLoader.df := base;
    }
    r := Deleted;
  }
}
