/**
 * The data-preparation script's ground-truth labeller and its train/test
 * split. Every phone gets one of the three labels from two threshold
 * scores, a gaming score and a photography score; the split cuts a shuffled
 * copy of the labelled frame and names the scenario by its rounded
 * percentages.
 */
module PrepareData {
  import opened Wrappers
  import opened Values
  import opened Text
  import opened Numbers
  import Evaluator
  import Catalog
  import Preprocessing

  const LABEL: string := "Label"

  // ---------------------------------------------------------------- camera

  /** What `parse_camera_mp` reads in an upper-cased camera text. */
  function CameraText(u: string): nat
  {
    match FirstMpNumber(u)
    case Some(n) => n
    case None => FirstNumber(u).GetOr(0)
  }

  /**
   * `parse_camera_mp`: 0 for a missing cell; otherwise the text `str()` gives,
   * upper-cased. A float prints its integer part's digits first and never
   * contains "MP"; `True` and `False` hold no digit.
   */
  function CameraMp(v: Value): nat
  {
    if IsMissing(v) then 0
    else if v.Str? then CameraText(Upper(v.s))
    else if v.Num? then (if v.x < 0.0 then -Trunc(v.x) else Trunc(v.x))
    else 0
  }

  /** An upper-cased camera text with a `(\d+)\s*MP` match reads as its first match. */
  lemma CameraTextMatch(u: string)
    requires exists i :: MpMatchAt(u, i)
    ensures exists i :: MpMatchAt(u, i) && (forall k :: 0 <= k < i ==> !MpMatchAt(u, k)) && CameraText(u) == LeadingNumber(u[i..])
  {
    FirstMpNumberIsSearch(u);
    assert CameraText(u) == FirstMpNumber(u).value;
  }

  /** Without such a match it reads as its first digit run, and as 0 when it has no digit. */
  lemma CameraTextFallback(u: string)
    requires forall i :: !MpMatchAt(u, i)
    ensures (exists i :: 0 <= i < |u| && IsDigit(u[i])) ==>
      exists i :: 0 <= i < |u| && IsDigit(u[i]) && (forall k :: 0 <= k < i ==> !IsDigit(u[k]))
        && CameraText(u) == LeadingNumber(u[i..])
    ensures (forall i :: 0 <= i < |u| ==> !IsDigit(u[i])) ==> CameraText(u) == 0
  {
    FirstMpNumberIsSearch(u);
    assert CameraText(u) == FirstNumber(u).GetOr(0);
    FirstNumberIsSearch(u);
  }

  /** Upper-casing leaves digits and "MP" alone. */
  lemma UpperDigitsMp(ds: string)
    requires forall i :: 0 <= i < |ds| ==> IsDigit(ds[i])
    ensures Upper(ds + "MP") == ds + "MP"
  {
    var s := ds + "MP";
    assert forall i :: 0 <= i < |s| ==> UpperChar(s[i]) == s[i];
    assert Upper(s) == s;
  }

  /** `str(n) + "MP"`, the form the catalogue writes, reads back as `n`. */
  lemma CameraMpReadsBack(n: nat)
    ensures CameraMp(Str(NatString(n) + "MP")) == n
  {
    var ds := NatString(n);
    var s := ds + "MP";
    UpperDigitsMp(ds);
    Preprocessing.DigitsThenMp(ds, "MP");
    NatStringValue(n);
    assert CameraText(s) == n;
    assert CameraMp(Str(s)) == CameraText(Upper(s));
  }

  // ---------------------------------------------------------------- the label

  /** `row.get(key, 0) or 0`: an absent or falsy cell becomes 0; `NaN` is truthy and stays. */
  function NumberOrZero(row: Row, key: string): Value
  {
    var v := Get(row, key, Num(0.0));
    if Truthy(v) then v else Num(0.0)
  }

  /** `gaming_score`: RAM >= 8 counts 2, battery >= 5000, storage >= 256 and price >= 7,000,000 count 1 each. */
  function GamingScore(ram: Value, battery: Value, storage: Value, price: Value): (r: Result<nat>)
    ensures r.Err? <==> !(IsNumber(ram) && IsNumber(battery) && IsNumber(storage) && IsNumber(price))
    ensures r.Ok? ==> r.value <= 5
  {
    match AtLeast(ram, 8.0)
    case Err(e) => Err(e)
    case Ok(a) =>
      match AtLeast(battery, 5000.0)
      case Err(e) => Err(e)
      case Ok(b) =>
        match AtLeast(storage, 256.0)
        case Err(e) => Err(e)
        case Ok(c) =>
          match AtLeast(price, 7000000.0)
          case Err(e) => Err(e)
          case Ok(d) => Ok((if a then 2 else 0) + (if b then 1 else 0) + (if c then 1 else 0) + (if d then 1 else 0))
  }

  /** The gaming score reaches 4 exactly when RAM is high and two of the other three criteria hold. */
  lemma GamingScoreSpec(ram: Value, battery: Value, storage: Value, price: Value)
    requires GamingScore(ram, battery, storage, price).Ok?
    ensures var b, s, p := Meets(battery, 5000.0), Meets(storage, 256.0), Meets(price, 7000000.0);
      GamingScore(ram, battery, storage, price).value >= 4 <==> Meets(ram, 8.0) && ((b && s) || (b && p) || (s && p))
  {
  }

  /** `photo_score`: camera >= 64 MP counts 2 (>= 48 MP counts 1), rating >= 4.3 and price >= 5,000,000 count 1 each. */
  function PhotoScore(camera: nat, rating: Value, price: Value): (r: Result<nat>)
    ensures r.Err? <==> !(IsNumber(rating) && IsNumber(price))
    ensures r.Ok? ==> r.value <= 4
  {
    var points := if camera >= 64 then 2 else if camera >= 48 then 1 else 0;
    match AtLeast(rating, 4.3)
    case Err(e) => Err(e)
    case Ok(a) =>
      match AtLeast(price, 5000000.0)
      case Err(e) => Err(e)
      case Ok(b) => Ok(points + (if a then 1 else 0) + (if b then 1 else 0))
  }

  /** The photo score reaches 3 with a 64 MP camera and one more criterion, or a 48 MP camera and both. */
  lemma PhotoScoreSpec(camera: nat, rating: Value, price: Value)
    requires PhotoScore(camera, rating, price).Ok?
    ensures var r, p := Meets(rating, 4.3), Meets(price, 5000000.0);
      PhotoScore(camera, rating, price).value >= 3 <==> (camera >= 64 && (r || p)) || (48 <= camera < 64 && r && p)
  {
  }

  /**
   * `determine_label`: Gaming when the gaming score reaches 4, else
   * Photographer when the photo score reaches 3, else Daily. A cell that
   * cannot be compared with a number raises, but the rating is compared
   * only when the phone is not a gaming phone.
   */
  function DetermineLabel(row: Row): (r: Result<Value>)
    ensures r.Ok? ==> r.value in Evaluator.LABELS
  {
    Decision(NumberOrZero(row, "Ram"), NumberOrZero(row, "Kapasitas_baterai"), NumberOrZero(row, "Memori_internal"),
            NumberOrZero(row, "Harga"), NumberOrZero(row, "Rating_pengguna"), CameraMp(Get(row, "Resolusi_kamera", Str(""))))
  }

  /** The decision of `determine_label` on the values it read. */
  function Decision(ram: Value, battery: Value, storage: Value, price: Value, rating: Value, camera: nat): (r: Result<Value>)
    ensures r.Ok? ==> r.value in Evaluator.LABELS
  {
    match GamingScore(ram, battery, storage, price)
    case Err(e) => Err(e)
    case Ok(g) =>
      if g >= 4 then Ok(Evaluator.GAMING)
      else
        match PhotoScore(camera, rating, price)
        case Err(e) => Err(e)
        case Ok(p) => if p >= 3 && g < 4 then Ok(Evaluator.PHOTOGRAPHER) else Ok(Evaluator.DAILY)
  }

  /** `NaN` read as 0: every positive threshold rejects both. */
  function Canon(v: Value): Value { if v == NaN then Num(0.0) else v }

  lemma AtLeastCanon(v: Value, t: real)
    requires t > 0.0
    ensures AtLeast(Canon(v), t) == AtLeast(v, t)
  {
  }

  lemma GamingScoreCanon(ram: Value, battery: Value, storage: Value, price: Value)
    ensures GamingScore(ram, battery, storage, price) == GamingScore(Canon(ram), Canon(battery), Canon(storage), Canon(price))
  {
    AtLeastCanon(ram, 8.0);
    AtLeastCanon(battery, 5000.0);
    AtLeastCanon(storage, 256.0);
    AtLeastCanon(price, 7000000.0);
  }

  lemma PhotoScoreCanon(camera: nat, rating: Value, price: Value)
    ensures PhotoScore(camera, rating, price) == PhotoScore(camera, Canon(rating), Canon(price))
  {
    AtLeastCanon(price, 5000000.0);
    AtLeastCanon(rating, 4.3);
  }

  /** The decision reads a `NaN` cell as it reads a 0. */
  lemma DecisionCanon(ram: Value, battery: Value, storage: Value, price: Value, rating: Value, camera: nat)
    ensures Decision(ram, battery, storage, price, rating, camera)
         == Decision(Canon(ram), Canon(battery), Canon(storage), Canon(price), Canon(rating), camera)
  {
    GamingScoreCanon(ram, battery, storage, price);
    PhotoScoreCanon(camera, rating, price);
  }

  /** A gaming phone: high RAM and two of battery, storage and price. */
  predicate GamingSpecs(ram: Value, battery: Value, storage: Value, price: Value)
  {
    var b, s, p := Meets(battery, 5000.0), Meets(storage, 256.0), Meets(price, 7000000.0);
    Meets(ram, 8.0) && ((b && s) || (b && p) || (s && p))
  }

  /** A photography phone: a 64 MP camera and one of rating and price, or a 48 MP camera and both. */
  predicate PhotoSpecs(camera: nat, rating: Value, price: Value)
  {
    var r, p := Meets(rating, 4.3), Meets(price, 5000000.0);
    (camera >= 64 && (r || p)) || (48 <= camera < 64 && r && p)
  }

  /**
   * The label by the criteria themselves: an error exactly when a compared
   * cell is not a number, otherwise Gaming, Photographer or Daily exactly
   * as the phone meets the gaming criteria, the photography criteria, or
   * neither.
   */
  lemma DetermineLabelSpec(row: Row)
    ensures var ram, battery, price := NumberOrZero(row, "Ram"), NumberOrZero(row, "Kapasitas_baterai"), NumberOrZero(row, "Harga");
      var rating, storage := NumberOrZero(row, "Rating_pengguna"), NumberOrZero(row, "Memori_internal");
      var camera := CameraMp(Get(row, "Resolusi_kamera", Str("")));
      var typed := IsNumber(ram) && IsNumber(battery) && IsNumber(storage) && IsNumber(price);
      var gaming := GamingSpecs(ram, battery, storage, price);
      && (DetermineLabel(row).Err? <==> !typed || (!gaming && !IsNumber(rating)))
      && (DetermineLabel(row) == Ok(Evaluator.GAMING) <==> typed && gaming)
      && (DetermineLabel(row) == Ok(Evaluator.PHOTOGRAPHER) <==> typed && !gaming && IsNumber(rating) && PhotoSpecs(camera, rating, price))
      && (DetermineLabel(row) == Ok(Evaluator.DAILY) <==> typed && !gaming && IsNumber(rating) && !PhotoSpecs(camera, rating, price))
  {
    var ram, battery, price := NumberOrZero(row, "Ram"), NumberOrZero(row, "Kapasitas_baterai"), NumberOrZero(row, "Harga");
    var rating, storage := NumberOrZero(row, "Rating_pengguna"), NumberOrZero(row, "Memori_internal");
    var camera := CameraMp(Get(row, "Resolusi_kamera", Str("")));
    var g := GamingScore(ram, battery, storage, price);
    if g.Ok? {
      GamingScoreSpec(ram, battery, storage, price);
      if g.value < 4 && PhotoScore(camera, rating, price).Ok? {
        PhotoScoreSpec(camera, rating, price);
      }
    }
  }

  /** The numeric cells the labeller reads. */
  const NUMERIC_KEYS: set<string> := {"Ram", "Kapasitas_baterai", "Harga", "Rating_pengguna", "Memori_internal"}

  /**
   * An absent, falsy or missing numeric cell counts as 0: the phone gets the
   * label it would get with a 0 there.
   */
  lemma MissingCountsAsZero(row: Row, key: string)
    requires key in NUMERIC_KEYS
    requires key !in row || IsMissing(row[key]) || !Truthy(row[key])
    ensures DetermineLabel(row) == DetermineLabel(row[key := Num(0.0)])
  {
    var z := row[key := Num(0.0)];
    var camera := CameraMp(Get(row, "Resolusi_kamera", Str("")));
    assert camera == CameraMp(Get(z, "Resolusi_kamera", Str("")));
    ZeroedAgrees(row, key, "Ram");
    ZeroedAgrees(row, key, "Kapasitas_baterai");
    ZeroedAgrees(row, key, "Memori_internal");
    ZeroedAgrees(row, key, "Harga");
    ZeroedAgrees(row, key, "Rating_pengguna");
    DecisionCanon(NumberOrZero(row, "Ram"), NumberOrZero(row, "Kapasitas_baterai"), NumberOrZero(row, "Memori_internal"),
                 NumberOrZero(row, "Harga"), NumberOrZero(row, "Rating_pengguna"), camera);
    DecisionCanon(NumberOrZero(z, "Ram"), NumberOrZero(z, "Kapasitas_baterai"), NumberOrZero(z, "Memori_internal"),
                 NumberOrZero(z, "Harga"), NumberOrZero(z, "Rating_pengguna"), camera);
  }

  /** Writing a 0 over a missing cell changes no cell as the labeller reads it. */
  lemma ZeroedAgrees(row: Row, key: string, k: string)
    requires key !in row || IsMissing(row[key]) || !Truthy(row[key])
    ensures Canon(NumberOrZero(row, k)) == Canon(NumberOrZero(row[key := Num(0.0)], k))
  {
  }

  /**
   * The criteria the docstring of `add_label_column` gives for a gaming
   * phone (RAM >= 8, battery >= 5000, price >= 5,000,000) are not the
   * code's: a phone meeting them with 128 GB of storage at 6,000,000 is not
   * labelled Gaming.
   */
  lemma DocstringGamingPhoneIsNotGaming()
    ensures var phone := map["Ram" := Num(8.0), "Kapasitas_baterai" := Num(5000.0), "Harga" := Num(6000000.0),
                             "Memori_internal" := Num(128.0), "Rating_pengguna" := Num(4.0)];
      DetermineLabel(phone) == Ok(Evaluator.DAILY)
  {
    var phone := map["Ram" := Num(8.0), "Kapasitas_baterai" := Num(5000.0), "Harga" := Num(6000000.0),
                     "Memori_internal" := Num(128.0), "Rating_pengguna" := Num(4.0)];
    assert NumberOrZero(phone, "Ram") == Num(8.0);
    assert NumberOrZero(phone, "Kapasitas_baterai") == Num(5000.0);
    assert NumberOrZero(phone, "Harga") == Num(6000000.0);
    assert NumberOrZero(phone, "Memori_internal") == Num(128.0);
    assert NumberOrZero(phone, "Rating_pengguna") == Num(4.0);
    assert "Resolusi_kamera" !in phone;
    assert CameraMp(Str("")) == 0;
  }

  // ---------------------------------------------------------------- the label column

  /** `add_label_column`: the `Label` column, appended unless the frame already has one. */
  function AddLabelColumn(df: Frame): Result<Frame>
  {
    match ApplyRows(df.rows, DetermineLabel)
    case Err(e) => Err(e)
    case Ok(ls) =>
      Ok(df.WithColumn(LABEL, ls))
  }

  /**
   * Labelling raises exactly when some row's label does; otherwise every row
   * keeps its cells and gets its own row's label, one of the three known
   * labels, and the frame gains the `Label` column.
   */
  lemma AddLabelColumnSpec(df: Frame)
    ensures AddLabelColumn(df).Err? <==> exists i :: 0 <= i < |df.rows| && DetermineLabel(df.rows[i]).Err?
    ensures AddLabelColumn(df).Ok? ==>
      var out := AddLabelColumn(df).value;
      && LABEL in out.columns && (forall c :: c in df.columns ==> c in out.columns)
      && |out.rows| == |df.rows|
      && forall i :: 0 <= i < |df.rows| ==>
           && DetermineLabel(df.rows[i]) == Ok(out.rows[i][LABEL])
           && out.rows[i][LABEL] in Evaluator.LABELS
           && forall c :: c in df.rows[i] && c != LABEL ==> c in out.rows[i] && out.rows[i][c] == df.rows[i][c]
  {
    var r := ApplyRows(df.rows, DetermineLabel);
    ApplyRowsSpec(df.rows, DetermineLabel);
    if r.Ok? {
      forall i | 0 <= i < |df.rows| ensures DetermineLabel(df.rows[i]).Ok? {
        assert DetermineLabel(df.rows[i]) == Ok(r.value[i]);
      }
    }
  }

  /** The label of a row depends on that row alone: equal rows of any two frames get the same label. */
  lemma LabelOfRowOnly(a: Frame, b: Frame, i: nat, j: nat)
    requires i < |a.rows| && j < |b.rows| && a.rows[i] == b.rows[j]
    requires AddLabelColumn(a).Ok? && AddLabelColumn(b).Ok?
    ensures AddLabelColumn(a).value.rows[i][LABEL] == AddLabelColumn(b).value.rows[j][LABEL]
  {
    AddLabelColumnSpec(a);
    AddLabelColumnSpec(b);
  }

  // ---------------------------------------------------------------- the split

  /** The scenario name of `split_and_save`: both percentages rounded. */
  function SplitName(trainRatio: real): string
  {
    IntString(RoundHalfEven(trainRatio * 100.0)) + "-" + IntString(RoundHalfEven((1.0 - trainRatio) * 100.0))
  }

  /** In exact arithmetic the two rounded percentages always add up to 100, ties included. */
  lemma RoundedPercentagesSum(trainRatio: real)
    ensures RoundHalfEven(trainRatio * 100.0) + RoundHalfEven((1.0 - trainRatio) * 100.0) == 100
  {
    var a := trainRatio * 100.0;
    var b := (1.0 - trainRatio) * 100.0;
    assert b == 100.0 - a;
    var f := a.Floor;
    var frac := a - f as real;
    if frac == 0.0 {
      assert b.Floor == 100 - f;
    } else {
      assert b.Floor == 99 - f;
      assert b - b.Floor as real == 1.0 - frac;
      if frac == 0.5 {
        assert (f % 2 == 0) != ((99 - f) % 2 == 0);
      }
    }
  }

  /** The files the preparation writes are named as the evaluator names the scenario that reads them. */
  lemma SplitNameIsScenarioName(trainRatio: real)
    ensures SplitName(trainRatio) == Evaluator.ScenarioName(RoundHalfEven(trainRatio * 100.0))
  {
    RoundedPercentagesSum(trainRatio);
  }

  /** `floor(train_size * n)`, the training part's size for a fractional `train_size`. */
  function TrainCount(n: nat, trainRatio: real): (k: nat)
    requires 0.0 < trainRatio < 1.0
    ensures k <= n && (n > 0 ==> k < n)
  {
    var x := trainRatio * n as real;
    RatioBelow(n, trainRatio);
    assert 0.0 <= x <= n as real;
    x.Floor
  }

  lemma RatioBelow(n: nat, trainRatio: real)
    requires 0.0 < trainRatio < 1.0
    ensures 0.0 <= trainRatio * n as real <= n as real
    ensures n > 0 ==> trainRatio * n as real < n as real
  {
    var x := n as real;
    var rest := (1.0 - trainRatio) * x;
    assert rest == x - trainRatio * x;
    assert 0.0 <= rest;
    assert x > 0.0 ==> 0.0 < rest;
  }

  /**
   * `split_and_save` with the order the random generator chose, given as
   * `perm`: the first `floor(ratio * n)` shuffled rows train, the rest
   * test. A ratio outside (0, 1) or an empty training part raises.
   */
  function SplitAndSave(df: Frame, trainRatio: real, perm: seq<nat>): (r: Result<(Frame, Frame, string)>)
    requires Catalog.IsPermutation(perm, |df.rows|)
    ensures r.Err? <==> !(0.0 < trainRatio < 1.0) || TrainCount(|df.rows|, trainRatio) == 0
    ensures r.Ok? ==>
      var (train, test, name) := r.value;
      && train.rows + test.rows == Catalog.Shuffled(df.rows, perm)
      && |train.rows| == TrainCount(|df.rows|, trainRatio) > 0 && |test.rows| > 0
      && train.columns == df.columns && test.columns == df.columns
      && name == SplitName(trainRatio)
  {
    if !(0.0 < trainRatio < 1.0) then Err("ValueError: train_size should be a float in the (0, 1) range")
    else
      var cut := TrainCount(|df.rows|, trainRatio);
      if cut == 0 then Err("ValueError: the resulting train set will be empty")
      else
        var shuffled := Catalog.Shuffled(df.rows, perm);
        assert shuffled[..cut] + shuffled[cut..] == shuffled;
        Ok((Frame(df.columns, shuffled[..cut]), Frame(df.columns, shuffled[cut..]), SplitName(trainRatio)))
  }
}
