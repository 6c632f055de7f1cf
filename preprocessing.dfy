/**
 * The data preprocessor: camera-resolution parsing, missing-value filling,
 * min-max scaling fitted on the case base, categorical encodings, and the
 * normalisation of user input against the fitted ranges.
 *
 * A cell that is absent from a row reads as `NaN`. Cells of the numeric
 * columns that are not numbers (pandas would raise on them) are treated as
 * missing by the median, minimum and maximum.
 */
module Preprocessing {
  import opened Wrappers
  import opened Sorting
  import opened Text
  import opened Values

  // ---------------------------------------------------------------- camera

  /** `CAMERA_RESOLUTION_MAP`: the resolutions listed by name. */
  function CameraTable(key: string): Option<nat>
  {
    if key == "5MP" then Some(5)
    else if key == "8MP" then Some(8)
    else if key == "12MP" then Some(12)
    else if key == "13MP" then Some(13)
    else if key == "16MP" then Some(16)
    else if key == "20MP" then Some(20)
    else if key == "24MP" then Some(24)
    else if key == "32MP" then Some(32)
    else if key == "48MP" then Some(48)
    else if key == "50MP" then Some(50)
    else if key == "64MP" then Some(64)
    else if key == "100MP" then Some(100)
    else if key == "108MP" then Some(108)
    else if key == "200MP" then Some(200)
    else None
  }

  /** The camera resolution used when nothing can be parsed. */
  const DEFAULT_CAMERA: nat := 12

  function Lookup<V>(table: seq<(string, V)>, k: string): (r: Option<V>)
    ensures r.Some? ==> exists i :: 0 <= i < |table| && table[i] == (k, r.value)
    ensures r.None? <==> forall i :: 0 <= i < |table| ==> table[i].0 != k
  {
    if table == [] then None
    else if table[0].0 == k then Some(table[0].1)
    else
      var r := Lookup(table[1..], k);
      assert forall i :: 0 <= i < |table| - 1 ==> table[1..][i] == table[i + 1];
      r
  }

  /** The text `parse_camera_resolution` inspects: upper-cased, spaces removed. */
  function CameraKey(s: string): string
  {
    RemoveSpaces(Upper(s))
  }

  /**
   * `parse_camera_resolution`. A number or boolean prints without "MP" and
   * so falls back to 12; a list of strings is not parsed.
   */
  function ParseCamera(v: Value): nat
  {
    if v.Str? then
      var key := CameraKey(v.s);
      var hit := CameraTable(key);
      if hit.Some? then hit.value else FirstMpNumber(key).GetOr(DEFAULT_CAMERA)
    else DEFAULT_CAMERA
  }

  /** A digit run followed directly by "MP" reads as that number. */
  lemma DigitsThenMp(ds: string, mp: string)
    requires ds != [] && forall i :: 0 <= i < |ds| ==> IsDigit(ds[i])
    requires mp == "MP"
    ensures FirstMpNumber(ds + mp) == Some(DigitsValue(ds))
  {
    assert mp[0] == 'M';
    DigitsThenRest(ds, mp);
  }

  lemma DigitsThenRest(ds: string, rest: string)
    requires ds != [] && forall i :: 0 <= i < |ds| ==> IsDigit(ds[i])
    requires rest != [] && !IsDigit(rest[0]) && StartsWith(StripLeft(rest), "MP")
    ensures FirstMpNumber(ds + rest) == Some(DigitsValue(ds))
  {
    var s := ds + rest;
    RunLengthOfDigits(ds, rest);
    assert s[..|ds|] == ds && s[|ds|..] == rest;
    assert s[0] == ds[0];
    MpAfterRun(s, |ds|);
  }

  /** When the digit run at the front of `s` is followed by "MP", the search stops there. */
  lemma MpAfterRun(s: string, n: nat)
    requires s != [] && IsDigit(s[0]) && RunLength(s, IsDigit) == n
    requires StartsWith(StripLeft(s[n..]), "MP")
    ensures FirstMpNumber(s) == Some(DigitsValue(s[..n]))
  {
  }

  lemma {:induction false} RunLengthOfDigits(ds: string, rest: string)
    requires forall i :: 0 <= i < |ds| ==> IsDigit(ds[i])
    requires rest == [] || !IsDigit(rest[0])
    ensures RunLength(ds + rest, IsDigit) == |ds|
  {
    if ds != [] {
      assert (ds + rest)[1..] == ds[1..] + rest;
      RunLengthOfDigits(ds[1..], rest);
    }
  }

  /** A table entry whose digits `ds` spell `n`. */
  lemma TableEntry(ds: string, n: nat)
    requires ds != [] && forall i :: 0 <= i < |ds| ==> IsDigit(ds[i])
    requires DigitsValue(ds) == n
    ensures FirstMpNumber(ds + "MP") == Some(n)
  {
    DigitsThenMp(ds, "MP");
  }

  /** A key of two digits and "MP" reads as its two-digit number. */
  lemma TwoDigitEntry(key: string, n: nat)
    requires |key| == 4 && key[2..] == "MP" && IsDigit(key[0]) && IsDigit(key[1])
    requires n == 10 * DigitValue(key[0]) + DigitValue(key[1])
    ensures FirstMpNumber(key) == Some(n)
  {
    var ds := key[..2];
    assert key == ds + "MP";
    assert DigitsValue(ds[..1]) == DigitValue(key[0]);
    TableEntry(ds, n);
  }

  /** A key of three digits and "MP" reads as its three-digit number. */
  lemma ThreeDigitEntry(key: string, n: nat)
    requires |key| == 5 && key[3..] == "MP" && IsDigit(key[0]) && IsDigit(key[1]) && IsDigit(key[2])
    requires n == 100 * DigitValue(key[0]) + 10 * DigitValue(key[1]) + DigitValue(key[2])
    ensures FirstMpNumber(key) == Some(n)
  {
    var ds := key[..3];
    assert key == ds + "MP";
    assert DigitsValue(ds[..1]) == DigitValue(key[0]);
    assert ds[..2][..1] == ds[..1];
    assert DigitsValue(ds[..2]) == 10 * DigitValue(key[0]) + DigitValue(key[1]);
    TableEntry(ds, n);
  }

  lemma Mp5(key: string) requires key == "5MP" ensures FirstMpNumber(key) == Some(5)
  { var ds := key[..1]; assert key == ds + "MP"; TableEntry(ds, 5); }
  lemma Mp8(key: string) requires key == "8MP" ensures FirstMpNumber(key) == Some(8)
  { var ds := key[..1]; assert key == ds + "MP"; TableEntry(ds, 8); }
  lemma Mp12(key: string) requires key == "12MP" ensures FirstMpNumber(key) == Some(12)
  { TwoDigitEntry(key, 12); }
  lemma Mp13(key: string) requires key == "13MP" ensures FirstMpNumber(key) == Some(13)
  { TwoDigitEntry(key, 13); }
  lemma Mp16(key: string) requires key == "16MP" ensures FirstMpNumber(key) == Some(16)
  { TwoDigitEntry(key, 16); }
  lemma Mp20(key: string) requires key == "20MP" ensures FirstMpNumber(key) == Some(20)
  { TwoDigitEntry(key, 20); }
  lemma Mp24(key: string) requires key == "24MP" ensures FirstMpNumber(key) == Some(24)
  { TwoDigitEntry(key, 24); }
  lemma Mp32(key: string) requires key == "32MP" ensures FirstMpNumber(key) == Some(32)
  { TwoDigitEntry(key, 32); }
  lemma Mp48(key: string) requires key == "48MP" ensures FirstMpNumber(key) == Some(48)
  { TwoDigitEntry(key, 48); }
  lemma Mp50(key: string) requires key == "50MP" ensures FirstMpNumber(key) == Some(50)
  { TwoDigitEntry(key, 50); }
  lemma Mp64(key: string) requires key == "64MP" ensures FirstMpNumber(key) == Some(64)
  { TwoDigitEntry(key, 64); }
  lemma Mp100(key: string) requires key == "100MP" ensures FirstMpNumber(key) == Some(100)
  { ThreeDigitEntry(key, 100); }
  lemma Mp108(key: string) requires key == "108MP" ensures FirstMpNumber(key) == Some(108)
  { ThreeDigitEntry(key, 108); }
  lemma Mp200(key: string) requires key == "200MP" ensures FirstMpNumber(key) == Some(200)
  { ThreeDigitEntry(key, 200); }

  /** Every entry of the camera table is what the regular expression would read from its key. */
  lemma CameraTableAgreesWithSearch(key: string)
    requires CameraTable(key).Some?
    ensures FirstMpNumber(key) == CameraTable(key)
  {
    if key == "5MP" { Mp5(key); }
    else if key == "8MP" { Mp8(key); }
    else if key == "12MP" { Mp12(key); }
    else if key == "13MP" { Mp13(key); }
    else if key == "16MP" { Mp16(key); }
    else if key == "20MP" { Mp20(key); }
    else if key == "24MP" { Mp24(key); }
    else if key == "32MP" { Mp32(key); }
    else if key == "48MP" { Mp48(key); }
    else if key == "50MP" { Mp50(key); }
    else if key == "64MP" { Mp64(key); }
    else if key == "100MP" { Mp100(key); }
    else if key == "108MP" { Mp108(key); }
    else { Mp200(key); }
  }

  /**
   * Parsing a missing value gives 12; parsing a string gives the first
   * `(\d+)\s*MP` number of its upper-cased, space-free form, or 12 when there
   * is none: the table only short-cuts the search.
   */
  lemma ParseCameraIsSearch(v: Value)
    ensures IsMissing(v) ==> ParseCamera(v) == DEFAULT_CAMERA
    ensures v.Str? ==> ParseCamera(v) == FirstMpNumber(CameraKey(v.s)).GetOr(DEFAULT_CAMERA)
  {
    if v.Str? {
      var key := CameraKey(v.s);
      if CameraTable(key).Some? {
        CameraTableAgreesWithSearch(key);
      }
    }
  }

  /** "108 MP" reads as 108. */
  lemma ParseCameraSpaced(text: string)
    requires text == "108 MP"
    ensures ParseCamera(Str(text)) == 108
  {
    SpacedKey(text);
    ParseCameraListed(Str(text), "108MP");
  }

  lemma SpacedKey(text: string)
    requires text == "108 MP"
    ensures CameraKey(text) == "108MP"
  {
    UpperKey(text);
    var a, b := text[..3], text[3..];
    assert text == a + b;
    NoSpaces(a);
    NoSpaces(b[1..]);
    RemoveSpacesAppend(a, b);
    assert RemoveSpaces(b) == b[1..];
    assert a + b[1..] == "108MP";
  }

  lemma UpperKey(text: string)
    requires text == "108 MP"
    ensures Upper(text) == text
  {
    forall i | 0 <= i < |text| ensures UpperChar(text[i]) == text[i] {
    }
  }

  lemma NoSpaces(s: string)
    requires ' ' !in s
    ensures RemoveSpaces(s) == s
  {
    if s != [] {
      NoSpaces(s[1..]);
    }
  }

  lemma {:induction false} RemoveSpacesAppend(a: string, b: string)
    ensures RemoveSpaces(a + b) == RemoveSpaces(a) + RemoveSpaces(b)
  {
    if a != [] {
      assert (a + b)[0] == a[0] && (a + b)[1..] == a[1..] + b;
      RemoveSpacesAppend(a[1..], b);
    } else {
      assert a + b == b;
    }
  }

  /** A value whose key is listed reads as the listed resolution. */
  lemma ParseCameraListed(v: Value, key: string)
    requires v.Str? && CameraKey(v.s) == key && CameraTable(key).Some?
    ensures ParseCamera(v) == CameraTable(key).value
  {
  }

  // ---------------------------------------------------------------- missing values

  const MEDIAN_COLUMNS: seq<string> :=
    ["Harga", "Ram", "Memori_internal", "Ukuran_layar", "Kapasitas_baterai", "Rating_pengguna"]
  const MODE_COLUMNS: seq<string> := ["Brand", "Os"]
  const UNKNOWN_COLUMNS: seq<string> := ["Nama_hp", "Resolusi_kamera"]
  const STOCK: string := "Stok_tersedia"
  /** The columns `handle_missing_values` fills, in the order it fills them. */
  const FILL_PLAN: seq<string> := MEDIAN_COLUMNS + MODE_COLUMNS + UNKNOWN_COLUMNS + [STOCK]

  /** The numbers of a column, missing and non-numeric cells skipped. */
  function Finite(col: seq<Value>): (r: seq<real>)
    ensures forall x :: x in r <==> exists i :: 0 <= i < |col| && IsFinite(col[i]) && AsReal(col[i]) == x
  {
    if col == [] then []
    else
      var n := |col| - 1;
      var r := Finite(col[..n]) + (if IsFinite(col[n]) then [AsReal(col[n])] else []);
      assert forall i :: 0 <= i < n ==> col[..n][i] == col[i];
      r
  }

  predicate RealLe(a: real, b: real) { a <= b }

  /** `Series.median()`: the middle of the sorted numbers, the mean of the two middles for an even count. */
  function Median(col: seq<Value>): Value
  {
    var s := Sort(Finite(col), RealLe);
    var n := |s|;
    if n == 0 then NaN
    else if n % 2 == 1 then Num(s[n / 2])
    else Num((s[n / 2 - 1] + s[n / 2]) / 2.0)
  }

  /** The median is a number exactly when the column holds one. */
  lemma MedianDefined(col: seq<Value>)
    ensures Median(col).Num? <==> exists i :: 0 <= i < |col| && IsFinite(col[i])
    ensures Median(col).NaN? <==> forall i :: 0 <= i < |col| ==> !IsFinite(col[i])
  {
    if exists i :: 0 <= i < |col| && IsFinite(col[i]) {
      var i :| 0 <= i < |col| && IsFinite(col[i]);
      FiniteHas(col, i);
      assert |Sort(Finite(col), RealLe)| > 0;
    } else {
      FiniteEmpty(col);
    }
  }

  lemma FiniteHas(col: seq<Value>, i: nat)
    requires i < |col|
    ensures IsFinite(col[i]) ==> AsReal(col[i]) in Finite(col)
  {
  }

  lemma FiniteEmpty(col: seq<Value>)
    requires forall i :: 0 <= i < |col| ==> !IsFinite(col[i])
    ensures Finite(col) == []
  {
  }

  function Count(s: seq<Value>, v: Value): nat { multiset(s)[v] }

  /** `a` ranks before `b` as a mode: more frequent, or as frequent and sorting first. */
  predicate BetterMode(all: seq<Value>, a: Value, b: Value)
  {
    Count(all, a) > Count(all, b) || (Count(all, a) == Count(all, b) && ValueLe(a, b))
  }

  function ModeAmong(all: seq<Value>, s: seq<Value>): (m: Value)
    requires s != []
    ensures m in s
  {
    if |s| == 1 then s[0]
    else
      var rest := ModeAmong(all, s[1..]);
      if BetterMode(all, s[0], rest) then s[0] else rest
  }

  lemma {:induction false} ModeAmongIsBest(all: seq<Value>, s: seq<Value>)
    requires s != []
    ensures forall u :: u in s ==> BetterMode(all, ModeAmong(all, s), u)
  {
    ValueLeIsPreorder();
    if |s| > 1 {
      ModeAmongIsBest(all, s[1..]);
      forall u | u in s ensures BetterMode(all, ModeAmong(all, s), u) {
        if u != s[0] { assert u in s[1..]; }
      }
    }
  }

  /** `Series.mode()[0]`: the most frequent present value, the least in sort order among ties. */
  function Mode(col: seq<Value>): Option<Value>
  {
    var present := Filter(col, (v: Value) => !IsMissing(v));
    if present == [] then None else Some(ModeAmong(present, present))
  }

  /** The mode occurs in the column, is present, and no present value is more frequent or ties and sorts before it. */
  lemma ModeIsMostFrequent(col: seq<Value>)
    ensures Mode(col).None? <==> forall i :: 0 <= i < |col| ==> IsMissing(col[i])
    ensures Mode(col).Some? ==>
      var m := Mode(col).value;
      && m in col && !IsMissing(m)
      && forall u :: u in col && !IsMissing(u) ==>
           multiset(col)[u] < multiset(col)[m] || (multiset(col)[u] == multiset(col)[m] && ValueLe(m, u))
  {
    var present := Filter(col, (v: Value) => !IsMissing(v));
    if present != [] {
      ModeAmongIsBest(present, present);
      PresentCounts(col);
    } else {
      forall i | 0 <= i < |col| ensures IsMissing(col[i]) {
        assert col[i] in col;
      }
    }
  }

  /** Counting among the present values counts every present value as the column does. */
  lemma {:induction false} PresentCounts(col: seq<Value>)
    ensures forall u :: !IsMissing(u) ==> multiset(Filter(col, (v: Value) => !IsMissing(v)))[u] == multiset(col)[u]
  {
    if col != [] {
      PresentCounts(col[1..]);
      assert col == [col[0]] + col[1..];
    }
  }

  /** The value `handle_missing_values` writes into missing cells of column `c`, if it fills `c`. */
  function FillValue(c: string, col: seq<Value>): Option<Value>
  {
    if c in MEDIAN_COLUMNS then Some(Median(col))
    else if c in MODE_COLUMNS then Some(Mode(col).GetOr(Str("Unknown")))
    else if c in UNKNOWN_COLUMNS then Some(Str("Unknown"))
    else if c == STOCK then Some(Bool(true))
    else None
  }

  /** Cell `c` of row `i` after `handle_missing_values`. */
  function FilledCell(df: Frame, i: nat, c: string): Value
    requires i < |df.rows|
  {
    var x := Get(df.rows[i], c, NaN);
    var fill := FillValue(c, df.Column(c));
    if c in df.columns && IsMissing(x) && fill.Some? then fill.value else x
  }

  /** `handle_missing_values` changes only missing cells, and only in the columns it fills. */
  lemma FilledKeepsOthers(df: Frame, i: nat, c: string)
    requires i < |df.rows|
    ensures !IsMissing(Get(df.rows[i], c, NaN)) ==> FilledCell(df, i, c) == Get(df.rows[i], c, NaN)
    ensures c !in df.columns || c !in FILL_PLAN ==> FilledCell(df, i, c) == Get(df.rows[i], c, NaN)
  {
    if c !in FILL_PLAN {
      assert c !in MEDIAN_COLUMNS && c !in MODE_COLUMNS && c !in UNKNOWN_COLUMNS && c != STOCK;
    }
  }

  /**
   * Afterwards the categorical, text and stock columns hold no missing cell,
   * a missing stock flag reads as in stock, and a numeric column holding any
   * number holds no missing cell.
   */
  lemma FilledLeavesNoMissing(df: Frame, i: nat, c: string)
    requires i < |df.rows| && c in df.columns
    ensures c in MODE_COLUMNS || c in UNKNOWN_COLUMNS || c == STOCK ==> !IsMissing(FilledCell(df, i, c))
    ensures c == STOCK && IsMissing(Get(df.rows[i], c, NaN)) ==> FilledCell(df, i, c) == Bool(true)
    ensures c in MEDIAN_COLUMNS && (exists k :: 0 <= k < |df.rows| && IsFinite(df.Column(c)[k])) ==>
      !IsMissing(FilledCell(df, i, c))
  {
    var col := df.Column(c);
    if c in MEDIAN_COLUMNS {
      MedianDefined(col);
      FilledWith(df, i, c, Median(col));
    } else if c in MODE_COLUMNS {
      ModeIsMostFrequent(col);
      FilledWith(df, i, c, Mode(col).GetOr(Str("Unknown")));
    } else if c in UNKNOWN_COLUMNS {
      FilledWith(df, i, c, Str("Unknown"));
    } else if c == STOCK {
      FilledWith(df, i, c, Bool(true));
    }
  }

  /** A missing cell of a planned column takes the column's fill value; any other cell stays. */
  lemma FilledWith(df: Frame, i: nat, c: string, v: Value)
    requires i < |df.rows| && c in df.columns && FillValue(c, df.Column(c)) == Some(v)
    ensures FilledCell(df, i, c) == if IsMissing(Get(df.rows[i], c, NaN)) then v else Get(df.rows[i], c, NaN)
  {
  }

  /** `column[c] = column[c].fillna(v)`. */
  function FillColumn(df: Frame, c: string, v: Value): (r: Frame)
    ensures r.columns == df.columns && |r.rows| == |df.rows|
    ensures forall i, d :: 0 <= i < |df.rows| ==>
      Get(r.rows[i], d, NaN) == if d == c && IsMissing(Get(df.rows[i], c, NaN)) then v else Get(df.rows[i], d, NaN)
  {
    Frame(df.columns, seq(|df.rows|, i requires 0 <= i < |df.rows| =>
      if IsMissing(Get(df.rows[i], c, NaN)) then df.rows[i][c := v] else df.rows[i]))
  }

  /** `handle_missing_values`: fills each planned column present in the frame, one after another. */
  method HandleMissingValues(df: Frame) returns (r: Frame)
    ensures r.columns == df.columns && |r.rows| == |df.rows|
    ensures forall i, c :: 0 <= i < |df.rows| ==> Get(r.rows[i], c, NaN) == FilledCell(df, i, c)
  {
    r := df;
    for k := 0 to |FILL_PLAN|
      invariant r.columns == df.columns && |r.rows| == |df.rows|
      invariant forall i, c :: 0 <= i < |df.rows| ==>
        Get(r.rows[i], c, NaN) == if c in FILL_PLAN[..k] then FilledCell(df, i, c) else Get(df.rows[i], c, NaN)
    {
      var c := FILL_PLAN[k];
      assert c !in FILL_PLAN[..k];
      assert FILL_PLAN[..k + 1] == FILL_PLAN[..k] + [c];
      if c in r.columns {
        assert r.Column(c) == df.Column(c);
        var fill := FillValue(c, r.Column(c));
        r := FillColumn(r, c, fill.value);
      }
    }
    forall i, c | 0 <= i < |df.rows| && c !in FILL_PLAN ensures FilledCell(df, i, c) == Get(df.rows[i], c, NaN) {
      FilledKeepsOthers(df, i, c);
    }
  }

  /** `add_camera_numeric`: the parsed resolution of every row, when the frame has a camera column. */
  function AddCameraNumeric(df: Frame): (r: Frame)
    ensures |r.rows| == |df.rows|
    ensures r.columns == PreparedColumns(df.columns)
    ensures forall i, c :: 0 <= i < |df.rows| ==>
      Get(r.rows[i], c, NaN) == if c == CAMERA_NUM && CAMERA in df.columns
        then Num(ParseCamera(Get(df.rows[i], CAMERA, NaN)) as real) else Get(df.rows[i], c, NaN)
  {
    if CAMERA in df.columns then
      df.WithColumn(CAMERA_NUM, seq(|df.rows|, i requires 0 <= i < |df.rows| =>
        Num(ParseCamera(Get(df.rows[i], CAMERA, NaN)) as real)))
    else df
  }

  const CAMERA: string := "Resolusi_kamera"
  const CAMERA_NUM: string := "Resolusi_kamera_num"

  function PreparedColumns(columns: seq<string>): seq<string>
  {
    if CAMERA in columns && CAMERA_NUM !in columns then columns + [CAMERA_NUM] else columns
  }

  /** Cell `c` of row `i` once missing values are filled and the camera column parsed. */
  function PreparedCell(df: Frame, i: nat, c: string): Value
    requires i < |df.rows|
  {
    if c == CAMERA_NUM && CAMERA in df.columns then Num(ParseCamera(FilledCell(df, i, CAMERA)) as real)
    else FilledCell(df, i, c)
  }

  function PreparedColumn(df: Frame, c: string): (col: seq<Value>)
    ensures |col| == |df.rows| && forall i :: 0 <= i < |df.rows| ==> col[i] == PreparedCell(df, i, c)
  {
    seq(|df.rows|, i requires 0 <= i < |df.rows| => PreparedCell(df, i, c))
  }

  /** `handle_missing_values` followed by `add_camera_numeric`, as `fit` and `transform` begin. */
  method Prepare(df: Frame) returns (p: Frame)
    ensures p.columns == PreparedColumns(df.columns) && |p.rows| == |df.rows|
    ensures forall i, c :: 0 <= i < |df.rows| ==> Get(p.rows[i], c, NaN) == PreparedCell(df, i, c)
  {
    var filled := HandleMissingValues(df);
    p := AddCameraNumeric(filled);
  }

  lemma PreparedColumnIsColumn(df: Frame, p: Frame, c: string)
    requires |p.rows| == |df.rows|
    requires forall i, c :: 0 <= i < |df.rows| ==> Get(p.rows[i], c, NaN) == PreparedCell(df, i, c)
    ensures p.Column(c) == PreparedColumn(df, c)
  {
  }

  // ---------------------------------------------------------------- ranges and encodings

  /** The columns scaled to [0, 1]. */
  const NUMERIC_COLUMNS: seq<string> :=
    ["Harga", "Ram", "Memori_internal", "Ukuran_layar", "Kapasitas_baterai", "Rating_pengguna", "Resolusi_kamera_num"]

  function MinOf(s: seq<real>): (m: real)
    requires s != []
    ensures m in s && forall x :: x in s ==> m <= x
  {
    if |s| == 1 then s[0]
    else
      var rest := MinOf(s[1..]);
      assert forall x :: x in s ==> x == s[0] || x in s[1..];
      if s[0] <= rest then s[0] else rest
  }

  function MaxOf(s: seq<real>): (m: real)
    requires s != []
    ensures m in s && forall x :: x in s ==> x <= m
  {
    if |s| == 1 then s[0]
    else
      var rest := MaxOf(s[1..]);
      assert forall x :: x in s ==> x == s[0] || x in s[1..];
      if s[0] >= rest then s[0] else rest
  }

  /** `Series.min()`, `NaN` for a column without numbers. */
  function ColumnMin(col: seq<Value>): (m: Value)
    ensures m.Num? || m.NaN?
  {
    var s := Finite(col);
    if s == [] then NaN else Num(MinOf(s))
  }

  /** `Series.max()`, `NaN` for a column without numbers. */
  function ColumnMax(col: seq<Value>): (m: Value)
    ensures m.Num? || m.NaN?
  {
    var s := Finite(col);
    if s == [] then NaN else Num(MaxOf(s))
  }

  /**
   * The fitted range of a column encloses every number in it and is attained;
   * it is undefined exactly when the column holds no number.
   */
  lemma ColumnRange(col: seq<Value>)
    ensures ColumnMin(col).NaN? <==> ColumnMax(col).NaN?
    ensures ColumnMin(col).NaN? <==> forall i :: 0 <= i < |col| ==> !IsFinite(col[i])
    ensures ColumnMin(col).Num? ==>
      && ColumnMin(col).x <= ColumnMax(col).x
      && (forall i :: 0 <= i < |col| && IsFinite(col[i]) ==> ColumnMin(col).x <= AsReal(col[i]) <= ColumnMax(col).x)
      && (exists i :: 0 <= i < |col| && IsFinite(col[i]) && AsReal(col[i]) == ColumnMin(col).x)
      && (exists i :: 0 <= i < |col| && IsFinite(col[i]) && AsReal(col[i]) == ColumnMax(col).x)
  {
    var s := Finite(col);
    if s == [] {
      forall i | 0 <= i < |col| ensures !IsFinite(col[i]) { FiniteHas(col, i); }
    } else {
      assert s[0] in s;
      forall i | 0 <= i < |col| && IsFinite(col[i]) ensures ColumnMin(col).x <= AsReal(col[i]) <= ColumnMax(col).x {
        assert AsReal(col[i]) in s;
      }
    }
  }

  /** `Series.unique()`: the distinct values in order of first appearance. */
  function Unique(s: seq<Value>): (u: seq<Value>)
    ensures forall v :: v in u <==> v in s
    ensures forall i, j :: 0 <= i < j < |u| ==> u[i] != u[j]
  {
    if s == [] then []
    else
      var n := |s| - 1;
      var u := Unique(s[..n]);
      assert forall v :: v in s <==> v in s[..n] || v == s[n];
      if s[n] in u then u else u + [s[n]]
  }

  /** The position of the first occurrence of `v` in `s`. */
  function FirstIndex(s: seq<Value>, v: Value): (k: nat)
    requires v in s
    ensures k < |s| && s[k] == v && forall j :: 0 <= j < k ==> s[j] != v
  {
    if s[0] == v then 0 else 1 + FirstIndex(s[1..], v)
  }

  lemma {:induction false} UniqueInFirstAppearanceOrder(s: seq<Value>)
    ensures forall i, j :: 0 <= i < j < |Unique(s)| ==> FirstIndex(s, Unique(s)[i]) < FirstIndex(s, Unique(s)[j])
  {
    if s != [] {
      var n := |s| - 1;
      var u := Unique(s[..n]);
      UniqueInFirstAppearanceOrder(s[..n]);
      forall v | v in s[..n] ensures FirstIndex(s, v) == FirstIndex(s[..n], v) {
        FirstIndexOfPrefix(s, n, v);
      }
      if s[n] !in u {
        forall i | 0 <= i < |u| ensures u[i] in s && FirstIndex(s, u[i]) < FirstIndex(s, s[n]) {
          assert u[i] in s[..n];
          assert s[n] !in s[..n];
        }
      }
    }
  }

  lemma FirstIndexOfPrefix(s: seq<Value>, n: nat, v: Value)
    requires n <= |s| && v in s[..n]
    ensures FirstIndex(s, v) == FirstIndex(s[..n], v)
  {
    var k := FirstIndex(s[..n], v);
    var k' := FirstIndex(s, v);
    assert s[k] == v;
  }

  /** `{value: i for i, value in enumerate(column.unique())}`. */
  function Encoding(s: seq<Value>): map<Value, nat>
  {
    var u := Unique(s);
    map i | 0 <= i < |u| :: u[i] := i
  }

  /**
   * An encoding gives each distinct value of the column one of the codes
   * 0..k-1, distinct values distinct codes, numbered in order of first
   * appearance.
   */
  lemma EncodingIsFirstAppearanceRank(s: seq<Value>)
    ensures Encoding(s).Keys == set v | v in s
    ensures forall v :: v in s ==> Encoding(s)[v] < |Unique(s)|
    ensures forall v, w :: v in s && w in s && v != w ==> Encoding(s)[v] != Encoding(s)[w]
    ensures forall v, w :: v in s && w in s ==> (Encoding(s)[v] < Encoding(s)[w] <==> FirstIndex(s, v) < FirstIndex(s, w))
  {
    var u := Unique(s);
    var e := Encoding(s);
    assert forall i :: 0 <= i < |u| ==> e[u[i]] == i;
    forall v | v in s ensures v in e && u[e[v]] == v {
      assert v in u;
      var i :| 0 <= i < |u| && u[i] == v;
      assert e[v] == i;
    }
    UniqueInFirstAppearanceOrder(s);
    forall v, w | v in s && w in s ensures Encoding(s)[v] < Encoding(s)[w] <==> FirstIndex(s, v) < FirstIndex(s, w) {
      var i, j := e[v], e[w];
      assert u[i] == v && u[j] == w;
      if i < j { assert FirstIndex(s, v) < FirstIndex(s, w); }
      else if j < i { assert FirstIndex(s, w) < FirstIndex(s, v); }
    }
  }

  // ---------------------------------------------------------------- scaling

  /** `max(0, min(1, x))`. */
  function Clip(x: real): (r: real)
    ensures 0.0 <= r <= 1.0
    ensures 0.0 <= x <= 1.0 ==> r == x
  {
    if x < 1.0 then (if 0.0 < x then x else 0.0) else 1.0
  }

  /** The `_norm` cell `transform` writes for the value `x` under the range `lo`..`hi`, unclipped. */
  function NormCell(x: Value, lo: Value, hi: Value): Value
  {
    if lo.Num? && hi.Num? then
      if hi.x - lo.x == 0.0 then Num(0.0)
      else if IsFinite(x) then Num((AsReal(x) - lo.x) / (hi.x - lo.x))
      else NaN
    else NaN
  }

  function NormName(c: string): string { c + "_norm" }

  /** The numeric column whose scaled copy is column `d`. */
  function NormSource(d: string): (r: Option<string>)
    ensures r.Some? ==> r.value in NUMERIC_COLUMNS && d == NormName(r.value)
    ensures r.None? ==> forall c :: c in NUMERIC_COLUMNS ==> d != NormName(c)
  {
    FindNorm(NUMERIC_COLUMNS, d)
  }

  function FindNorm(cs: seq<string>, d: string): (r: Option<string>)
    ensures r.Some? ==> r.value in cs && d == NormName(r.value)
    ensures r.None? ==> forall c :: c in cs ==> d != NormName(c)
  {
    if cs == [] then None
    else if NormName(cs[0]) == d then Some(cs[0])
    else FindNorm(cs[1..], d)
  }

  lemma NormNameInjective(a: string, b: string)
    requires NormName(a) == NormName(b)
    ensures a == b
  {
    assert a == NormName(a)[..|a|] && b == NormName(b)[..|b|];
  }

  predicate EndsWithNorm(d: string) { |d| >= 5 && d[|d| - 5..] == "_norm" }

  lemma NormNameEnds(c: string)
    ensures EndsWithNorm(NormName(c))
  {
    assert NormName(c)[|NormName(c)| - 5..] == "_norm";
  }

  /** No scaled column is itself one of the numeric columns. */
  lemma NumericColumnsAreNotNormNames()
    ensures forall c :: c in NUMERIC_COLUMNS ==> NormSource(c).None?
  {
    forall c | c in NUMERIC_COLUMNS ensures NormSource(c).None? {
      assert !EndsWithNorm(c);
      var r := NormSource(c);
      if r.Some? { NormNameEnds(r.value); }
    }
  }

  /** `normalize_value` on a fitted, well-defined range, as a plain function. */
  function Scaled(value: real, lo: real, hi: real): (r: real)
    ensures 0.0 <= r <= 1.0
  {
    if hi - lo == 0.0 then 0.0 else Clip((value - lo) / (hi - lo))
  }

  /** `denormalize_value` on a well-defined range. */
  function Unscaled(u: real, lo: real, hi: real): real
  {
    u * (hi - lo) + lo
  }

  /** Scaling is monotone in the value and reaches 0 at `lo` and 1 at `hi`. */
  lemma ScaledMonotone(v: real, w: real, lo: real, hi: real)
    requires v <= w && lo <= hi
    ensures Scaled(v, lo, hi) <= Scaled(w, lo, hi)
    ensures lo < hi ==> Scaled(lo, lo, hi) == 0.0 && Scaled(hi, lo, hi) == 1.0
  {
    var d := hi - lo;
    if d != 0.0 {
      DivideByPositive(v - lo, w - lo, d);
      ClipMonotone((v - lo) / d, (w - lo) / d);
      DivSelf(d);
      assert (lo - lo) / d == 0.0;
    }
  }

  lemma ClipMonotone(x: real, y: real)
    requires x <= y
    ensures Clip(x) <= Clip(y)
  {
  }

  lemma DivideByPositive(a: real, b: real, d: real)
    requires a <= b && 0.0 < d
    ensures a / d <= b / d
  {
  }

  lemma DivSelf(d: real)
    requires d != 0.0
    ensures d / d == 1.0
  {
  }

  lemma DivMulCancel(a: real, d: real)
    requires d != 0.0
    ensures (a / d) * d == a && (a * d) / d == a
  {
  }

  /** Unscaling undoes scaling inside the range, and scaling undoes unscaling inside [0, 1]. */
  lemma ScaleRoundTrip(v: real, u: real, lo: real, hi: real)
    requires lo < hi
    ensures lo <= v <= hi ==> Unscaled(Scaled(v, lo, hi), lo, hi) == v
    ensures 0.0 <= u <= 1.0 ==> Scaled(Unscaled(u, lo, hi), lo, hi) == u
  {
    var d := hi - lo;
    var q := (v - lo) / d;
    DivMulCancel(v - lo, d);
    DivMulCancel(u, d);
    if lo <= v <= hi {
      DivideByPositive(0.0, v - lo, d);
      DivideByPositive(v - lo, d, d);
      DivSelf(d);
      assert Scaled(v, lo, hi) == q;
    }
    if 0.0 <= u <= 1.0 {
      assert Unscaled(u, lo, hi) - lo == u * d;
    }
  }

  // ---------------------------------------------------------------- user input

  /** Keys that name the camera, in any case. */
  const CAMERA_KEYS: seq<string> := ["resolusi_kamera", "camera"]

  /** The key table of `normalize_user_input`. */
  const USER_INPUT_FIELDS: seq<(string, string)> :=
    [("ram", "Ram"), ("memori_internal", "Memori_internal"), ("ukuran_layar", "Ukuran_layar"),
     ("kapasitas_baterai", "Kapasitas_baterai"), ("min_baterai", "Kapasitas_baterai"),
     ("rating", "Rating_pengguna"), ("min_rating", "Rating_pengguna"), ("harga", "Harga"),
     ("max_harga", "Harga"), ("resolusi_kamera", "Resolusi_kamera_num")]

  /** The column a user key maps to: camera keys to the parsed column, others through the table or unchanged. */
  function ColumnFor(table: seq<(string, string)>, key: string): string
  {
    if Lower(key) in CAMERA_KEYS then CAMERA_NUM else Lookup(table, Lower(key)).GetOr(key)
  }

  /** The (column, number) an input item contributes before scaling: `None` values, non-numbers are dropped; camera strings are parsed. */
  function InputEntry(table: seq<(string, string)>, item: (string, Value)): (r: Option<(string, Value)>)
    ensures r.Some? ==> IsNumber(r.value.1) && r.value.0 == ColumnFor(table, item.0)
    ensures item.1.Null? ==> r.None?
    ensures IsNumber(item.1) ==> r == Some((ColumnFor(table, item.0), item.1))
  {
    var (key, v) := item;
    if v.Null? then None
    else
      var v' := if Lower(key) in CAMERA_KEYS && v.Str? then Num(ParseCamera(v) as real) else v;
      if IsNumber(v') then Some((ColumnFor(table, key), v')) else None
  }

  /** `d[c] = x` when an entry `(c, x)` is produced, `d` unchanged otherwise. */
  function Put(m: map<string, real>, e: Option<(string, real)>): map<string, real>
  {
    if e.None? then m else m[e.value.0 := e.value.1]
  }

  /** The dict built by putting the entries one after another into an empty one. */
  function PutAll(es: seq<Option<(string, real)>>): map<string, real>
  {
    if es == [] then map[] else Put(PutAll(es[..|es| - 1]), es[|es| - 1])
  }

  /** The keys of the dict are the columns of the entries. */
  lemma {:induction false} PutAllKeys(es: seq<Option<(string, real)>>)
    ensures forall c :: c in PutAll(es) <==> exists j :: 0 <= j < |es| && es[j].Some? && es[j].value.0 == c
  {
    if es != [] {
      var n := |es| - 1;
      PutAllKeys(es[..n]);
      forall c ensures c in PutAll(es) <==> exists j :: 0 <= j < |es| && es[j].Some? && es[j].value.0 == c {
        if c in PutAll(es[..n]) {
          var j :| 0 <= j < n && es[..n][j].Some? && es[..n][j].value.0 == c;
          assert es[j] == es[..n][j];
        } else if !(es[n].Some? && es[n].value.0 == c) {
          forall j | 0 <= j < |es| ensures !(es[j].Some? && es[j].value.0 == c) {
            if j < n { assert es[j] == es[..n][j]; }
          }
        }
      }
    }
  }

  /** A column holds the value of the last entry for it. */
  lemma {:induction false} PutAllLast(es: seq<Option<(string, real)>>, j: nat, c: string)
    requires j < |es| && es[j].Some? && es[j].value.0 == c
    requires forall l :: j < l < |es| ==> !(es[l].Some? && es[l].value.0 == c)
    ensures c in PutAll(es) && PutAll(es)[c] == es[j].value.1
  {
    var n := |es| - 1;
    if j < n {
      forall l | j < l < n ensures !(es[..n][l].Some? && es[..n][l].value.0 == c) {
        assert es[..n][l] == es[l];
      }
      assert es[..n][j] == es[j];
      PutAllLast(es[..n], j, c);
    }
  }

  /** The fitted state of the preprocessor. */
  class Preprocessor {
    var minValues: map<string, Value>
    var maxValues: map<string, Value>
    var isFitted: bool
    var brandEncoding: map<Value, nat>
    var osEncoding: map<Value, nat>

    /** Both range maps cover the same columns, each range either a pair of numbers in order or undefined. */
    ghost predicate Valid()
      reads this
    {
      && minValues.Keys == maxValues.Keys
      && forall c :: c in minValues ==>
           (minValues[c].Num? && maxValues[c].Num? && minValues[c].x <= maxValues[c].x)
           || (minValues[c].NaN? && maxValues[c].NaN?)
    }

    constructor ()
      ensures Valid() && !isFitted
      ensures minValues == map[] && maxValues == map[] && brandEncoding == map[] && osEncoding == map[]
    {
      minValues, maxValues := map[], map[];
      isFitted := false;
      brandEncoding, osEncoding := map[], map[];
    }

    /** The range loop of `fit` over an already prepared frame. */
    method FitRanges(p: Frame)
      requires Valid()
      modifies this`minValues, this`maxValues
      ensures Valid()
      ensures forall c :: c in minValues <==> c in old(minValues) || (c in NUMERIC_COLUMNS && c in p.columns)
      ensures forall c :: c in NUMERIC_COLUMNS && c in p.columns ==>
        minValues[c] == ColumnMin(p.Column(c)) && maxValues[c] == ColumnMax(p.Column(c))
      ensures forall c :: c in old(minValues) && !(c in NUMERIC_COLUMNS && c in p.columns) ==>
        minValues[c] == old(minValues[c]) && maxValues[c] == old(maxValues[c])
    {
      for k := 0 to |NUMERIC_COLUMNS|
        invariant Valid()
        invariant forall c :: c in minValues <==> c in old(minValues) || (c in NUMERIC_COLUMNS[..k] && c in p.columns)
        invariant forall c :: c in NUMERIC_COLUMNS[..k] && c in p.columns ==>
          minValues[c] == ColumnMin(p.Column(c)) && maxValues[c] == ColumnMax(p.Column(c))
        invariant forall c :: c in old(minValues) && !(c in NUMERIC_COLUMNS[..k] && c in p.columns) ==>
          minValues[c] == old(minValues[c]) && maxValues[c] == old(maxValues[c])
      {
        var c := NUMERIC_COLUMNS[k];
        assert NUMERIC_COLUMNS[..k + 1] == NUMERIC_COLUMNS[..k] + [c];
        if c in p.columns {
          ColumnRange(p.Column(c));
          minValues := minValues[c := ColumnMin(p.Column(c))];
          maxValues := maxValues[c := ColumnMax(p.Column(c))];
        }
      }
      assert NUMERIC_COLUMNS[..|NUMERIC_COLUMNS|] == NUMERIC_COLUMNS;
    }

    /**
     * `fit`: records the range of every numeric column of the prepared frame
     * (earlier ranges of other columns stay) and encodes brand and OS.
     */
    method Fit(df: Frame)
      requires Valid()
      modifies this
      ensures Valid() && isFitted
      ensures var cols := PreparedColumns(df.columns);
        && (forall c :: c in minValues <==> c in old(minValues) || (c in NUMERIC_COLUMNS && c in cols))
        && (forall c :: c in NUMERIC_COLUMNS && c in cols ==>
              minValues[c] == ColumnMin(PreparedColumn(df, c)) && maxValues[c] == ColumnMax(PreparedColumn(df, c)))
        && (forall c :: c in old(minValues) && !(c in NUMERIC_COLUMNS && c in cols) ==>
              minValues[c] == old(minValues[c]) && maxValues[c] == old(maxValues[c]))
        && brandEncoding == (if "Brand" in cols then Encoding(PreparedColumn(df, "Brand")) else old(brandEncoding))
        && osEncoding == (if "Os" in cols then Encoding(PreparedColumn(df, "Os")) else old(osEncoding))
    {
      var p := Prepare(df);
      forall c ensures p.Column(c) == PreparedColumn(df, c) { PreparedColumnIsColumn(df, p, c); }
      FitRanges(p);
      if "Brand" in p.columns {
        brandEncoding := Encoding(p.Column("Brand"));
      }
      if "Os" in p.columns {
        osEncoding := Encoding(p.Column("Os"));
      }
      isFitted := true;
    }

    /** Cell `d` of row `i` after `transform` under the current ranges. */
    ghost function TransformedCell(df: Frame, i: nat, d: string): Value
      reads this
      requires i < |df.rows| && Valid()
    {
      match NormSource(d)
      case Some(c) =>
        if c in PreparedColumns(df.columns) && c in minValues
        then NormCell(PreparedCell(df, i, c), minValues[c], maxValues[c])
        else PreparedCell(df, i, d)
      case None => PreparedCell(df, i, d)
    }

    /** The column names after `NUMERIC_COLUMNS[..k]` have had their turn in `transform`. */
    ghost function ColumnsUpTo(df: Frame, k: nat): seq<string>
      reads this
      requires k <= |NUMERIC_COLUMNS|
    {
      if k == 0 then PreparedColumns(df.columns)
      else
        var cs := ColumnsUpTo(df, k - 1);
        var c := NUMERIC_COLUMNS[k - 1];
        if c in PreparedColumns(df.columns) && c in minValues && NormName(c) !in cs then cs + [NormName(c)] else cs
    }

    /** The column names of the frame `transform` returns. */
    ghost function TransformedColumns(df: Frame): seq<string>
      reads this
    {
      ColumnsUpTo(df, |NUMERIC_COLUMNS|)
    }

    /**
     * The prepared columns come first; a further column is the `_norm` copy
     * of a numeric column that the prepared frame has and that has a fitted
     * range, and every such copy is there.
     */
    lemma {:induction false} ColumnsUpToSpec(df: Frame, k: nat)
      requires k <= |NUMERIC_COLUMNS|
      ensures PreparedColumns(df.columns) <= ColumnsUpTo(df, k)
      ensures forall d :: d in ColumnsUpTo(df, k) <==>
        d in PreparedColumns(df.columns) ||
        (NormSource(d).Some? && NormSource(d).value in NUMERIC_COLUMNS[..k]
         && NormSource(d).value in PreparedColumns(df.columns) && NormSource(d).value in minValues)
    {
      if k > 0 {
        ColumnsUpToSpec(df, k - 1);
        var c := NUMERIC_COLUMNS[k - 1];
        assert NUMERIC_COLUMNS[..k] == NUMERIC_COLUMNS[..k - 1] + [c];
        var s := NormSource(NormName(c));
        assert s.Some? by { assert c in NUMERIC_COLUMNS; }
        NormNameInjective(s.value, c);
        forall d | NormSource(d).Some? && NormSource(d).value == c ensures d == NormName(c) { }
      }
    }

    /** `transform` adds, after the prepared columns, the `_norm` copy of every present numeric column with a range. */
    lemma TransformedColumnsSpec(df: Frame)
      ensures PreparedColumns(df.columns) <= TransformedColumns(df)
      ensures forall c :: c in NUMERIC_COLUMNS && c in PreparedColumns(df.columns) && c in minValues ==>
        NormName(c) in TransformedColumns(df)
      ensures forall d :: d in TransformedColumns(df) ==>
        d in PreparedColumns(df.columns) ||
        (NormSource(d).Some? && NormSource(d).value in PreparedColumns(df.columns) && NormSource(d).value in minValues)
    {
      ColumnsUpToSpec(df, |NUMERIC_COLUMNS|);
      assert NUMERIC_COLUMNS[..|NUMERIC_COLUMNS|] == NUMERIC_COLUMNS;
      forall c | c in NUMERIC_COLUMNS && c in PreparedColumns(df.columns) && c in minValues
        ensures NormName(c) in TransformedColumns(df)
      {
        var s := NormSource(NormName(c));
        assert s.Some?;
        NormNameInjective(s.value, c);
      }
    }

    /** Columns `NUMERIC_COLUMNS[..k]` have had their turn: each cell is as `transform` leaves it or as prepared. */
    ghost predicate NormalizedUpTo(df: Frame, p: Frame, k: nat)
      reads this
      requires Valid() && k <= |NUMERIC_COLUMNS|
    {
      && |p.rows| == |df.rows|
      && forall i, d :: 0 <= i < |df.rows| ==>
          Get(p.rows[i], d, NaN) ==
            if NormSource(d).Some? && NormSource(d).value in NUMERIC_COLUMNS[..k] then TransformedCell(df, i, d)
            else PreparedCell(df, i, d)
    }

    /** Adding the scaled copy of a fitted column present in the frame advances the loop by one column. */
    lemma NormalizeStep(df: Frame, p: Frame, q: Frame, k: nat, lo: Value, hi: Value, col: seq<Value>)
      requires Valid() && k < |NUMERIC_COLUMNS| && NormalizedUpTo(df, p, k)
      requires var c := NUMERIC_COLUMNS[k];
        && c in PreparedColumns(df.columns) && c in minValues && lo == minValues[c] && hi == maxValues[c]
        && |col| == |p.rows| && (forall i :: 0 <= i < |p.rows| ==> col[i] == NormCell(Get(p.rows[i], c, NaN), lo, hi))
        && q == p.WithColumn(NormName(c), col)
      ensures NormalizedUpTo(df, q, k + 1)
    {
      var c := NUMERIC_COLUMNS[k];
      assert NUMERIC_COLUMNS[..k + 1] == NUMERIC_COLUMNS[..k] + [c];
      NumericColumnsAreNotNormNames();
      forall i, d | 0 <= i < |df.rows|
        ensures Get(q.rows[i], d, NaN) ==
          if NormSource(d).Some? && NormSource(d).value in NUMERIC_COLUMNS[..k + 1] then TransformedCell(df, i, d)
          else PreparedCell(df, i, d)
      {
        assert Get(p.rows[i], c, NaN) == PreparedCell(df, i, c);
        assert q.rows[i] == p.rows[i][NormName(c) := col[i]];
        var s := NormSource(d);
        if d == NormName(c) {
          assert c in NUMERIC_COLUMNS;
          assert s.Some?;
          NormNameInjective(s.value, c);
          assert Get(q.rows[i], d, NaN) == col[i];
        } else {
          assert Get(q.rows[i], d, NaN) == Get(p.rows[i], d, NaN);
        }
      }
    }

    /** A column that is missing or has no range leaves the frame as it is. */
    lemma SkipStep(df: Frame, p: Frame, k: nat)
      requires Valid() && k < |NUMERIC_COLUMNS| && NormalizedUpTo(df, p, k)
      requires var c := NUMERIC_COLUMNS[k]; !(c in PreparedColumns(df.columns) && c in minValues)
      ensures NormalizedUpTo(df, p, k + 1)
    {
      var c := NUMERIC_COLUMNS[k];
      assert NUMERIC_COLUMNS[..k + 1] == NUMERIC_COLUMNS[..k] + [c];
    }

    /**
     * `transform`: fails before `fit`; otherwise prepares the frame and adds
     * a `_norm` column for every numeric column that has a fitted range.
     */
    method Transform(df: Frame) returns (r: Result<Frame>)
      requires Valid()
      ensures r.Err? <==> !isFitted
      ensures r.Ok? ==> |r.value.rows| == |df.rows| && r.value.columns == TransformedColumns(df)
      ensures r.Ok? ==> forall i, d :: 0 <= i < |df.rows| ==> Get(r.value.rows[i], d, NaN) == TransformedCell(df, i, d)
    {
      if !isFitted {
        return Err("Preprocessor belum di-fit. Panggil fit() terlebih dahulu.");
      }
      var p := Prepare(df);
      NumericColumnsAreNotNormNames();
      for k := 0 to |NUMERIC_COLUMNS|
        invariant |p.rows| == |df.rows|
        invariant forall c :: c in NUMERIC_COLUMNS ==> (c in p.columns <==> c in PreparedColumns(df.columns))
        invariant NormalizedUpTo(df, p, k)
        invariant p.columns == ColumnsUpTo(df, k)
      {
        var c := NUMERIC_COLUMNS[k];
        if c in p.columns && c in minValues {
          var lo, hi := minValues[c], maxValues[c];
          var col := seq(|p.rows|, i requires 0 <= i < |p.rows| => NormCell(Get(p.rows[i], c, NaN), lo, hi));
          var q := p.WithColumn(NormName(c), col);
          NormalizeStep(df, p, q, k, lo, hi, col);
          p := q;
        } else {
          SkipStep(df, p, k);
        }
      }
      NormalizedAll(df, p);
      r := Ok(p);
    }

    /** `norm` is what `transform` makes of `df` under the current ranges: its rows, its columns and every cell. */
    ghost predicate IsTransformOf(df: Frame, norm: Frame)
      reads this
      requires Valid()
    {
      && |norm.rows| == |df.rows|
      && norm.columns == TransformedColumns(df)
      && forall i, d :: 0 <= i < |df.rows| ==> Get(norm.rows[i], d, NaN) == TransformedCell(df, i, d)
    }

    /** Two results of `transform` on the same frame agree on their columns and on every cell. */
    lemma TransformsAgree(df: Frame, a: Frame, b: Frame)
      requires Valid() && IsTransformOf(df, a) && IsTransformOf(df, b)
      ensures SameCells(a, b)
    {
      forall i, d | 0 <= i < |a.rows| ensures Get(a.rows[i], d, NaN) == Get(b.rows[i], d, NaN) {
        assert Get(a.rows[i], d, NaN) == TransformedCell(df, i, d);
      }
    }

    /** Once every numeric column has had its turn, each cell is as `transform` leaves it. */
    lemma NormalizedAll(df: Frame, p: Frame)
      requires Valid() && NormalizedUpTo(df, p, |NUMERIC_COLUMNS|)
      ensures forall i, d :: 0 <= i < |df.rows| ==> Get(p.rows[i], d, NaN) == TransformedCell(df, i, d)
    {
      assert NUMERIC_COLUMNS[..|NUMERIC_COLUMNS|] == NUMERIC_COLUMNS;
    }

    /**
     * `normalize_value`: fails before `fit`, passes a value through for a
     * column without a range, and otherwise scales and clips it. An
     * undefined range (`NaN` bounds) clips to 1.
     */
    function NormalizeValue(value: real, column: string): (r: Result<real>)
      reads this
      requires Valid()
      ensures r.Err? <==> !isFitted
      ensures r.Ok? && column !in minValues ==> r.value == value
      ensures r.Ok? && column in minValues ==> 0.0 <= r.value <= 1.0
      ensures r.Ok? && column in minValues && minValues[column].Num? ==>
        r.value == Scaled(value, minValues[column].x, maxValues[column].x)
    {
      if !isFitted then Err("Preprocessor belum di-fit.")
      else if column !in minValues then Ok(value)
      else
        var lo, hi := minValues[column], maxValues[column];
        if lo.Num? then Ok(Scaled(value, lo.x, hi.x)) else Ok(1.0)
    }

    /** `normalize_value` on a number cell: `NaN` clips to 1 on a fitted column, and is dropped on any other. */
    function NormalizeNumber(v: Value, column: string): (r: Result<Option<real>>)
      reads this
      requires Valid() && IsNumber(v)
      ensures r.Err? <==> !isFitted
      ensures IsFinite(v) && r.Ok? ==> r == Ok(Some(NormalizeValue(AsReal(v), column).value))
      ensures r.Ok? && r.value.None? <==> isFitted && v.NaN? && column !in minValues
    {
      if !isFitted then Err("Preprocessor belum di-fit.")
      else if IsFinite(v) then Ok(Some(NormalizeValue(AsReal(v), column).value))
      else if column !in minValues then Ok(None)
      else
        var lo, hi := minValues[column], maxValues[column];
        Ok(Some(if lo.Num? && hi.x - lo.x == 0.0 then 0.0 else 1.0))
    }

    /** `denormalize_value`: no check that the preprocessor is fitted; an undefined range gives `NaN`. */
    function DenormalizeValue(u: real, column: string): (r: Value)
      reads this
      requires Valid()
      ensures column !in minValues ==> r == Num(u)
      ensures column in minValues && minValues[column].Num? ==>
        r == Num(Unscaled(u, minValues[column].x, maxValues[column].x))
      ensures column in minValues && minValues[column].NaN? ==> r.NaN?
    {
      if column !in minValues then Num(u)
      else
        var lo, hi := minValues[column], maxValues[column];
        if lo.Num? then Num(Unscaled(u, lo.x, hi.x)) else NaN
    }

    /**
     * For a fitted column with a proper range, denormalising a normalised
     * value inside the range gives it back.
     */
    lemma NormalizeRoundTrip(v: real, column: string)
      requires Valid() && isFitted && column in minValues && minValues[column].Num?
      requires minValues[column].x < maxValues[column].x
      requires minValues[column].x <= v <= maxValues[column].x
      ensures DenormalizeValue(NormalizeValue(v, column).value, column) == Num(v)
    {
      ScaleRoundTrip(v, 0.0, minValues[column].x, maxValues[column].x);
    }

    /** The (column, value) an input item leaves in the normalised dict, or the failure it raises. */
    function NormalizedEntry(table: seq<(string, string)>, item: (string, Value)): (r: Result<Option<(string, real)>>)
      reads this
      requires Valid()
      ensures r.Err? <==> !isFitted && InputEntry(table, item).Some?
      ensures r.Ok? && r.value.Some? ==> InputEntry(table, item).Some? && r.value.value.0 == InputEntry(table, item).value.0
    {
      match InputEntry(table, item)
      case None => Ok(None)
      case Some((c, v)) =>
        match NormalizeNumber(v, c)
        case Err(e) => Err(e)
        case Ok(None) => Ok(None)
        case Ok(Some(x)) => Ok(Some((c, x)))
    }

    /** Item `j` is the last of `items[..n]` to write column `c`. */
    ghost predicate LastWriter(table: seq<(string, string)>, items: seq<(string, Value)>, n: nat, j: int, c: string)
      reads this
      requires Valid() && n <= |items|
    {
      && 0 <= j < n
      && Writes(table, items[j], c)
      && forall l :: j < l < n ==> !Writes(table, items[l], c)
    }

    /** The item normalises to an entry for column `c`. */
    ghost predicate Writes(table: seq<(string, string)>, item: (string, Value), c: string)
      reads this
      requires Valid()
    {
      var e := EntryValue(table, item);
      e.Some? && e.value.0 == c
    }

    /** The entry an item normalises to; none when it fails. */
    function EntryValue(table: seq<(string, string)>, item: (string, Value)): Option<(string, real)>
      reads this
      requires Valid()
    {
      match NormalizedEntry(table, item)
      case Ok(e) => e
      case Err(_) => None
    }

    /** The entries of all the items, in order. */
    function EntryValues(table: seq<(string, string)>, items: seq<(string, Value)>): (es: seq<Option<(string, real)>>)
      reads this
      requires Valid()
      ensures |es| == |items| && forall j :: 0 <= j < |items| ==> es[j] == EntryValue(table, items[j])
      decreases |items|
    {
      if items == [] then []
      else
        var n := |items| - 1;
        assert forall j :: 0 <= j < n ==> items[..n][j] == items[j];
        EntryValues(table, items[..n]) + [EntryValue(table, items[n])]
    }

    /** A dict that does not fail is the entries put one after another. */
    lemma {:induction false} NormalizedInputIsPutAll(table: seq<(string, string)>, items: seq<(string, Value)>)
      requires Valid() && NormalizedInput(table, items).Ok?
      ensures NormalizedInput(table, items).value == PutAll(EntryValues(table, items))
      decreases |items|
    {
      if items != [] {
        var n := |items| - 1;
        NormalizedInputStep(table, items);
        NormalizedInputIsPutAll(table, items[..n]);
        var es := EntryValues(table, items);
        assert es[..n] == EntryValues(table, items[..n]);
      }
    }

    /**
     * The dict the loop of `normalize_user_input` (and of the engine's
     * `_prepare_query`, with its own key table) builds from `items`, or the
     * failure of the first item it cannot normalise.
     */
    function NormalizedInput(table: seq<(string, string)>, items: seq<(string, Value)>): (r: Result<map<string, real>>)
      reads this
      requires Valid()
      decreases |items|
    {
      if items == [] then Ok(map[])
      else
        match NormalizedInput(table, items[..|items| - 1])
        case Err(e) => Err(e)
        case Ok(m) =>
          match NormalizedEntry(table, items[|items| - 1])
          case Err(e) => Err(e)
          case Ok(None) => Ok(m)
          case Ok(Some((c, x))) => Ok(m[c := x])
    }

    /**
     * The normalised dict fails exactly when the preprocessor is unfitted and
     * some item is numeric; otherwise it holds the columns the items write,
     * each with the value of the last item that writes it.
     */
    lemma NormalizedInputSpec(table: seq<(string, string)>, items: seq<(string, Value)>)
      requires Valid()
      ensures var r := NormalizedInput(table, items);
        && (r.Err? <==> !isFitted && exists j :: 0 <= j < |items| && InputEntry(table, items[j]).Some?)
        && (r.Ok? ==> forall c :: c in r.value <==> exists j :: 0 <= j < |items| && Writes(table, items[j], c))
        && (r.Ok? ==> forall j, c :: LastWriter(table, items, |items|, j, c) ==>
              c in r.value && Some((c, r.value[c])) == NormalizedEntry(table, items[j]).value)
    {
      NormalizedInputFails(table, items);
      if NormalizedInput(table, items).Ok? {
        NormalizedInputKeys(table, items);
        NormalizedInputLastWriter(table, items);
      }
    }

    lemma {:induction false} NormalizedInputFails(table: seq<(string, string)>, items: seq<(string, Value)>)
      requires Valid()
      ensures NormalizedInput(table, items).Err? <==> !isFitted && exists j :: 0 <= j < |items| && InputEntry(table, items[j]).Some?
      decreases |items|
    {
      if items != [] {
        var n := |items| - 1;
        NormalizedInputFails(table, items[..n]);
        assert forall j :: 0 <= j < n ==> items[..n][j] == items[j];
        if !isFitted && exists j :: 0 <= j < |items| && InputEntry(table, items[j]).Some? {
          var j :| 0 <= j < |items| && InputEntry(table, items[j]).Some?;
          if j < n { assert InputEntry(table, items[..n][j]).Some?; }
        }
      }
    }

    lemma NormalizedInputKeys(table: seq<(string, string)>, items: seq<(string, Value)>)
      requires Valid() && NormalizedInput(table, items).Ok?
      ensures forall c :: c in NormalizedInput(table, items).value <==> exists j :: 0 <= j < |items| && Writes(table, items[j], c)
    {
      NormalizedInputIsPutAll(table, items);
      PutAllKeys(EntryValues(table, items));
    }

    /** The last item's entry, put into the dict the ones before it build. */
    lemma NormalizedInputStep(table: seq<(string, string)>, items: seq<(string, Value)>)
      requires Valid() && items != [] && NormalizedInput(table, items).Ok?
      ensures var n := |items| - 1;
        && NormalizedInput(table, items[..n]).Ok? && NormalizedEntry(table, items[n]).Ok?
        && NormalizedInput(table, items).value == Put(NormalizedInput(table, items[..n]).value, NormalizedEntry(table, items[n]).value)
    {
    }

    lemma NormalizedInputLastWriter(table: seq<(string, string)>, items: seq<(string, Value)>)
      requires Valid() && NormalizedInput(table, items).Ok?
      ensures forall j, c :: LastWriter(table, items, |items|, j, c) ==>
        c in NormalizedInput(table, items).value
        && Some((c, NormalizedInput(table, items).value[c])) == NormalizedEntry(table, items[j]).value
    {
      NormalizedInputIsPutAll(table, items);
      var es := EntryValues(table, items);
      forall j, c | LastWriter(table, items, |items|, j, c)
        ensures c in PutAll(es) && Some((c, PutAll(es)[c])) == NormalizedEntry(table, items[j]).value
      {
        PutAllLast(es, j, c);
      }
    }

    /** The loop that builds `NormalizedInput`, stopping at the first failure. */
    method NormalizeEntries(table: seq<(string, string)>, items: seq<(string, Value)>)
      returns (r: Result<map<string, real>>)
      requires Valid()
      ensures r == NormalizedInput(table, items)
    {
      var m: map<string, real> := map[];
      for k := 0 to |items|
        invariant NormalizedInput(table, items[..k]) == Ok(m)
      {
        assert items[..k + 1][..k] == items[..k];
        var e := NormalizedEntry(table, items[k]);
        if e.Err? {
          NormalizedInputFailurePersists(table, items, k + 1);
          return Err(e.error);
        }
        if e.value.Some? {
          m := m[e.value.value.0 := e.value.value.1];
        }
      }
      assert items[..|items|] == items;
      r := Ok(m);
    }

    /** Once a prefix of the items fails, so do all longer prefixes, with the same message. */
    lemma {:induction false} NormalizedInputFailurePersists(table: seq<(string, string)>, items: seq<(string, Value)>, k: nat)
      requires Valid() && k <= |items|
      requires NormalizedInput(table, items[..k]).Err?
      ensures NormalizedInput(table, items) == NormalizedInput(table, items[..k])
      decreases |items| - k
    {
      if k < |items| {
        assert items[..k + 1][..k] == items[..k];
        NormalizedInputFailurePersists(table, items, k + 1);
      } else {
        assert items[..k] == items;
      }
    }

    /** `normalize_user_input`. */
    method NormalizeUserInput(items: seq<(string, Value)>) returns (r: Result<map<string, real>>)
      requires Valid()
      ensures r == NormalizedInput(USER_INPUT_FIELDS, items)
      ensures r.Err? <==> !isFitted && exists j :: 0 <= j < |items| && InputEntry(USER_INPUT_FIELDS, items[j]).Some?
      ensures r.Ok? ==> forall c :: c in r.value <==> exists j :: 0 <= j < |items| && Writes(USER_INPUT_FIELDS, items[j], c)
      ensures r.Ok? ==> forall j, c :: LastWriter(USER_INPUT_FIELDS, items, |items|, j, c) ==>
        c in r.value && Some((c, r.value[c])) == NormalizedEntry(USER_INPUT_FIELDS, items[j]).value
    {
      r := NormalizeEntries(USER_INPUT_FIELDS, items);
      NormalizedInputSpec(USER_INPUT_FIELDS, items);
    }
  }
}
