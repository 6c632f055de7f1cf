/**
 * The phone catalog: loading a frame (the spreadsheet itself is read
 * elsewhere and handed in), checking its structure, statistics, distinct
 * values of a column, conjunctive filtering, appending a phone with a fresh
 * id, and the train/test split of a shuffled copy.
 *
 * Pandas comparisons are modelled on cells: numbers compare by value,
 * strings lexicographically, and any comparison involving a missing cell is
 * false.
 */
module Catalog {
  import opened Wrappers
  import opened Sorting
  import opened Values
  import opened Numbers
  import Preprocessing

  const REQUIRED_COLUMNS: seq<string> :=
    ["Id_hp", "Nama_hp", "Brand", "Harga", "Ram", "Memori_internal", "Ukuran_layar", "Resolusi_kamera",
     "Kapasitas_baterai", "Os", "Rating_pengguna"]
  const OPTIONAL_COLUMNS: seq<string> := ["Tahun_rilis", "Stok_tersedia"]
  /** Columns that must not have missing cells. */
  const CRITICAL_COLUMNS: seq<string> := ["Id_hp", "Nama_hp", "Harga"]

  /** A problem `_validate_dataset` reports; the message text is not modelled. */
  datatype Problem = MissingColumns(columns: set<string>) | NotNumeric(column: string) | HasNulls(column: string, count: nat)

  /** A column of numeric dtype: every cell a number or missing. */
  predicate NumericColumn(col: seq<Value>) { forall i :: 0 <= i < |col| ==> IsNumber(col[i]) || IsMissing(col[i]) }

  function MissingRequired(columns: seq<string>): set<string>
  {
    set c | c in REQUIRED_COLUMNS && c !in columns
  }

  /** `df[col].isnull().sum()`. */
  function NullCount(col: seq<Value>): nat
  {
    CountIf(col, IsMissing)
  }

  lemma {:induction false} NullCountPositive(col: seq<Value>)
    ensures NullCount(col) > 0 <==> exists i :: 0 <= i < |col| && IsMissing(col[i])
  {
    if col != [] {
      NullCountPositive(col[1..]);
      if IsMissing(col[0]) {
      } else if exists i :: 0 <= i < |col| && IsMissing(col[i]) {
        var i :| 0 <= i < |col| && IsMissing(col[i]);
        assert col[1..][i - 1] == col[i];
      }
    }
  }

  /** The type problem of column `c`, if it is present and not numeric. */
  function TypeProblem(df: Frame, c: string): seq<Problem>
  {
    if c in df.columns && !NumericColumn(df.Column(c)) then [NotNumeric(c)] else []
  }

  /** The missing-cell problems of the columns `cols`, in their order. */
  function NullProblems(df: Frame, cols: seq<string>): seq<Problem>
  {
    if cols == [] then []
    else
      var c := cols[|cols| - 1];
      NullProblems(df, cols[..|cols| - 1])
        + (if c in df.columns && NullCount(df.Column(c)) > 0 then [HasNulls(c, NullCount(df.Column(c)))] else [])
  }

  lemma NullProblemsStep(df: Frame, cols: seq<string>, k: nat)
    requires k < |cols|
    ensures NullProblems(df, cols[..k + 1]) == NullProblems(df, cols[..k])
      + (if cols[k] in df.columns && NullCount(df.Column(cols[k])) > 0 then [HasNulls(cols[k], NullCount(df.Column(cols[k])))] else [])
  {
    assert cols[..k + 1][..k] == cols[..k];
  }

  /** Every problem `_validate_dataset` finds in `df`, in the order it reports them. */
  function Problems(df: Frame): seq<Problem>
  {
    var missing := MissingRequired(df.columns);
    (if missing != {} then [MissingColumns(missing)] else [])
      + TypeProblem(df, "Harga") + TypeProblem(df, "Ram") + NullProblems(df, CRITICAL_COLUMNS)
  }

  lemma {:induction false} NullProblemsSpec(df: Frame, cols: seq<string>)
    ensures forall p :: p in NullProblems(df, cols) <==>
      p.HasNulls? && p.column in cols && p.column in df.columns && p.count == NullCount(df.Column(p.column)) && p.count > 0
  {
    if cols != [] {
      NullProblemsSpec(df, cols[..|cols| - 1]);
      assert forall c :: c in cols <==> c in cols[..|cols| - 1] || c == cols[|cols| - 1];
    }
  }

  /** A frame `_validate_dataset` accepts. */
  ghost predicate Clean(df: Frame)
  {
    && (forall c :: c in REQUIRED_COLUMNS ==> c in df.columns)
    && ("Harga" in df.columns ==> NumericColumn(df.Column("Harga")))
    && ("Ram" in df.columns ==> NumericColumn(df.Column("Ram")))
    && (forall c, i :: c in CRITICAL_COLUMNS && c in df.columns && 0 <= i < |df.rows| ==> !IsMissing(Get(df.rows[i], c, NaN)))
  }

  /**
   * Each reported problem is a real defect and each defect is reported:
   * missing required columns (all in one entry), a non-numeric price or RAM
   * column, and missing cells in a critical column.
   */
  lemma ProblemsSpec(df: Frame)
    ensures forall m :: MissingColumns(m) in Problems(df) <==> m == MissingRequired(df.columns) && m != {}
    ensures forall c :: NotNumeric(c) in Problems(df) <==>
      (c == "Harga" || c == "Ram") && c in df.columns && !NumericColumn(df.Column(c))
    ensures forall c, n :: HasNulls(c, n) in Problems(df) <==>
      c in CRITICAL_COLUMNS && c in df.columns && n == NullCount(df.Column(c)) && n > 0
  {
    NullProblemsSpec(df, CRITICAL_COLUMNS);
  }

  /** The dataset passes validation exactly when it is clean. */
  lemma ProblemsEmptyIffClean(df: Frame)
    ensures Problems(df) == [] <==> Clean(df)
  {
    var missing := MissingRequired(df.columns);
    var nulls := NullProblems(df, CRITICAL_COLUMNS);
    NullProblemsSpec(df, CRITICAL_COLUMNS);
    assert missing == {} <==> forall c :: c in REQUIRED_COLUMNS ==> c in df.columns by {
      if missing == {} {
        forall c | c in REQUIRED_COLUMNS ensures c in df.columns { assert c !in missing; }
      }
    }
    assert nulls == [] <==> forall c, i :: c in CRITICAL_COLUMNS && c in df.columns && 0 <= i < |df.rows| ==>
        !IsMissing(Get(df.rows[i], c, NaN)) by {
      if nulls != [] {
        var p := nulls[0];
        assert p in nulls;
        NullCountPositive(df.Column(p.column));
      } else {
        forall c, i | c in CRITICAL_COLUMNS && c in df.columns && 0 <= i < |df.rows| ensures !IsMissing(Get(df.rows[i], c, NaN)) {
          NullCountPositive(df.Column(c));
          assert HasNulls(c, NullCount(df.Column(c))) !in nulls;
        }
      }
    }
  }

  /** `df[c] >= x` on one cell. */
  predicate Ge(a: Value, b: Value)
  {
    (IsFinite(a) && IsFinite(b) && AsReal(a) >= AsReal(b)) || (a.Str? && b.Str? && StrLe(b.s, a.s))
  }

  /** `df[c] <= x` on one cell. */
  predicate Le(a: Value, b: Value)
  {
    (IsFinite(a) && IsFinite(b) && AsReal(a) <= AsReal(b)) || (a.Str? && b.Str? && StrLe(a.s, b.s))
  }

  /** `df[c] == x` on one cell: numbers by value (`True == 1`), other cells structurally, missing never. */
  predicate Eq(a: Value, b: Value)
  {
    if IsFinite(a) && IsFinite(b) then AsReal(a) == AsReal(b)
    else !IsMissing(a) && !IsFinite(a) && a == b
  }

  /** `df[c].isin(values)` on one cell; a missing cell matches a missing value. */
  predicate IsIn(a: Value, values: seq<Value>)
  {
    exists i :: 0 <= i < |values| && (Eq(a, values[i]) || (IsMissing(a) && IsMissing(values[i])))
  }

  /** A criterion value: a dict with optional `min`/`max`, a list, or anything else. */
  datatype Criterion = Range(min: Option<Value>, max: Option<Value>) | AnyOf(values: seq<Value>) | Equals(value: Value)

  /** The row passes one criterion on a frame with columns `cols`; a criterion on an unknown column passes. */
  predicate Passes(cols: seq<string>, row: Row, c: string, crit: Criterion)
  {
    var x := Get(row, c, NaN);
    c !in cols ||
    match crit
    case Range(lo, hi) => (lo.None? || Ge(x, lo.value)) && (hi.None? || Le(x, hi.value))
    case AnyOf(vs) => IsIn(x, vs)
    case Equals(v) => Eq(x, v)
  }

  /** The row passes every criterion. */
  predicate PassesAll(cols: seq<string>, row: Row, criteria: seq<(string, Criterion)>)
  {
    forall k :: 0 <= k < |criteria| ==> Passes(cols, row, criteria[k].0, criteria[k].1)
  }

  /** The boolean mask `df[c] >= v`. */
  function AtLeast(c: string, v: Value): Row -> bool { (row: Row) => Ge(Get(row, c, NaN), v) }

  /** The boolean mask `df[c] <= v`. */
  function AtMost(c: string, v: Value): Row -> bool { (row: Row) => Le(Get(row, c, NaN), v) }

  /** The boolean mask `df[c].isin(vs)`. */
  function AmongValues(c: string, vs: seq<Value>): Row -> bool { (row: Row) => IsIn(Get(row, c, NaN), vs) }

  /** The boolean mask `df[c] == v`. */
  function EqualTo(c: string, v: Value): Row -> bool { (row: Row) => Eq(Get(row, c, NaN), v) }

  /** The rows passing one criterion. */
  function PassesOne(cols: seq<string>, c: string, crit: Criterion): Row -> bool
  {
    (row: Row) => Passes(cols, row, c, crit)
  }

  /** The rows passing every criterion. */
  function MatchesAll(cols: seq<string>, criteria: seq<(string, Criterion)>): Row -> bool
  {
    (row: Row) => PassesAll(cols, row, criteria)
  }

  /** Filtering by the first `k` criteria and then by the next one is filtering by the first `k + 1`. */
  lemma MatchesAllExtend(rows: seq<Row>, cols: seq<string>, criteria: seq<(string, Criterion)>, k: nat)
    requires k < |criteria|
    ensures Filter(Filter(rows, MatchesAll(cols, criteria[..k])), PassesOne(cols, criteria[k].0, criteria[k].1))
         == Filter(rows, MatchesAll(cols, criteria[..k + 1]))
  {
    var (c, crit) := criteria[k];
    forall row ensures PassesAll(cols, row, criteria[..k + 1]) <==> PassesAll(cols, row, criteria[..k]) && Passes(cols, row, c, crit) {
      assert forall j :: 0 <= j < k ==> criteria[..k + 1][j] == criteria[..k][j];
      assert criteria[..k + 1][k] == (c, crit);
    }
    FilterTwice(rows, MatchesAll(cols, criteria[..k]), PassesOne(cols, c, crit), MatchesAll(cols, criteria[..k + 1]));
  }

  /** One step of `filter_by_criteria`: the successive boolean-mask filters one criterion applies. */
  function ApplyCriterion(rows: seq<Row>, cols: seq<string>, c: string, crit: Criterion): seq<Row>
  {
    if c !in cols then rows
    else
      match crit
      case Range(lo, hi) =>
        var r1 := if lo.Some? then Filter(rows, AtLeast(c, lo.value)) else rows;
        if hi.Some? then Filter(r1, AtMost(c, hi.value)) else r1
      case AnyOf(vs) => Filter(rows, AmongValues(c, vs))
      case Equals(v) => Filter(rows, EqualTo(c, v))
  }

  /** One step keeps exactly the rows that pass that criterion, in order. */
  lemma ApplyCriterionIsFilter(rows: seq<Row>, cols: seq<string>, c: string, crit: Criterion)
    ensures ApplyCriterion(rows, cols, c, crit) == Filter(rows, PassesOne(cols, c, crit))
  {
    var p := PassesOne(cols, c, crit);
    if c !in cols {
      FilterKeepsAll(rows, p);
    } else {
      match crit
      case Range(lo, hi) =>
        if lo.Some? && hi.Some? {
          FilterTwice(rows, AtLeast(c, lo.value), AtMost(c, hi.value), p);
        } else if lo.Some? {
          FilterSame(rows, AtLeast(c, lo.value), p);
        } else if hi.Some? {
          FilterSame(rows, AtMost(c, hi.value), p);
        } else {
          FilterKeepsAll(rows, p);
        }
      case AnyOf(vs) =>
        FilterSame(rows, AmongValues(c, vs), p);
      case Equals(v) =>
        FilterSame(rows, EqualTo(c, v), p);
    }
  }

  /** Sorted distinct finite numbers of a column. */
  function Options(col: seq<Value>): (r: seq<real>)
  {
    Sort(DistinctReals(Preprocessing.Finite(col)), Preprocessing.RealLe)
  }

  function DistinctReals(s: seq<real>): (u: seq<real>)
    ensures forall x :: x in u <==> x in s
    ensures forall i, j :: 0 <= i < j < |u| ==> u[i] != u[j]
  {
    if s == [] then []
    else
      var n := |s| - 1;
      var u := DistinctReals(s[..n]);
      assert forall x :: x in s <==> x in s[..n] || x == s[n];
      if s[n] in u then u else u + [s[n]]
  }

  /** `sorted(df[c].unique())` for a column of numbers: strictly increasing, holding each number of the column. */
  lemma OptionsSpec(col: seq<Value>)
    ensures forall i, j :: 0 <= i < j < |Options(col)| ==> Options(col)[i] < Options(col)[j]
    ensures forall x :: x in Options(col) <==> exists i :: 0 <= i < |col| && IsFinite(col[i]) && AsReal(col[i]) == x
  {
    var u := DistinctReals(Preprocessing.Finite(col));
    var r := Options(col);
    SortSorted(u, Preprocessing.RealLe);
    forall x ensures x in r <==> x in u {
      assert x in r <==> x in multiset(r);
    }
    forall i, j | 0 <= i < j < |r| ensures r[i] < r[j] {
      assert r[i] <= r[j];
      DistinctStaysDistinct(u, r, i, j);
    }
  }

  /** A reordering of a duplicate-free sequence is duplicate-free. */
  lemma DistinctStaysDistinct(u: seq<real>, r: seq<real>, i: nat, j: nat)
    requires multiset(r) == multiset(u)
    requires forall a, b :: 0 <= a < b < |u| ==> u[a] != u[b]
    requires i < j < |r|
    ensures r[i] != r[j]
  {
    if r[i] == r[j] {
      var x := r[i];
      assert multiset(r)[x] >= 2 by {
        assert r == r[..i] + [x] + r[i + 1..j] + [x] + r[j + 1..];
      }
      DistinctCountsOne(u, x);
      assert false;
    }
  }

  lemma {:induction false} DistinctCountsOne(u: seq<real>, x: real)
    requires forall a, b :: 0 <= a < b < |u| ==> u[a] != u[b]
    ensures multiset(u)[x] <= 1
  {
    if u != [] {
      var n := |u| - 1;
      DistinctCountsOne(u[..n], x);
      assert u == u[..n] + [u[n]];
      if u[n] == x {
        assert x !in u[..n];
      }
    }
  }

  function Sum(s: seq<real>): real
  {
    if s == [] then 0.0 else Sum(s[..|s| - 1]) + s[|s| - 1]
  }

  /** `int(df['Harga'].min())`, `max` and `mean`; `None` where there is no price to convert. */
  datatype PriceRange = PriceRange(min: int, max: int, mean: int)

  datatype Statistics = Statistics(
    totalPhones: nat,
    totalColumns: nat,
    columns: seq<string>,
    brands: nat,
    brandList: seq<Value>,
    priceRange: PriceRange,
    ramOptions: seq<real>,
    storageOptions: seq<real>,
    missingValues: map<string, nat>)

  /** The price summary of `get_statistics`, failing where `int` meets `NaN` (no price at all). */
  function PriceSummary(df: Frame): (r: Result<PriceRange>)
    ensures "Harga" !in df.columns ==> r == Ok(PriceRange(0, 0, 0))
    ensures "Harga" in df.columns ==>
      (r.Err? <==> forall i :: 0 <= i < |df.rows| ==> !IsFinite(Get(df.rows[i], "Harga", NaN)))
    ensures r.Ok? && "Harga" in df.columns ==>
      forall i :: 0 <= i < |df.rows| && IsFinite(Get(df.rows[i], "Harga", NaN)) ==>
        r.value.min <= Trunc(AsReal(Get(df.rows[i], "Harga", NaN))) && Trunc(AsReal(Get(df.rows[i], "Harga", NaN))) <= r.value.max
  {
    if "Harga" !in df.columns then Ok(PriceRange(0, 0, 0))
    else
      var col := df.Column("Harga");
      Preprocessing.ColumnRange(col);
      var s := Preprocessing.Finite(col);
      if s == [] then Err("cannot convert float NaN to integer")
      else
        var lo, hi := Preprocessing.ColumnMin(col).x, Preprocessing.ColumnMax(col).x;
        assert forall i :: 0 <= i < |df.rows| && IsFinite(col[i]) ==> Trunc(lo) <= Trunc(AsReal(col[i])) <= Trunc(hi) by {
          forall x, y | x <= y ensures Trunc(x) <= Trunc(y) { TruncMonotone(x, y); }
        }
        Ok(PriceRange(Trunc(lo), Trunc(hi), Trunc(Sum(s) / (|s| as real))))
  }

  lemma TruncMonotone(x: real, y: real)
    requires x <= y
    ensures Trunc(x) <= Trunc(y)
  {
  }

  /** The catalog loaded from the spreadsheet, and the problems its last validation found. */
  class DataLoader {
    var df: Frame
    var isLoaded: bool
    var validationErrors: seq<Problem>

    constructor ()
      ensures df == Frame([], []) && !isLoaded && validationErrors == []
    {
      df := Frame([], []);
      isLoaded := false;
      validationErrors := [];
    }

    /** `load`: takes the frame read from the file, validates it if asked, and marks the catalog loaded. */
    method Load(contents: Frame, validate: bool) returns (r: Frame)
      modifies this
      ensures df == contents && isLoaded && r == contents
      ensures validationErrors == if validate then Problems(contents) else old(validationErrors)
    {
      df := contents;
      if validate {
        var _ := ValidateDataset();
      }
      isLoaded := true;
      r := df;
    }

    /**
     * `_validate_dataset`: starts a fresh problem list, records every problem
     * of the current frame, and reports whether there were none.
     */
    method ValidateDataset() returns (valid: bool)
      modifies this`validationErrors
      ensures validationErrors == Problems(df)
      ensures valid <==> validationErrors == []
    {
      validationErrors := [];
      var missing := MissingRequired(df.columns);
      if missing != {} {
        validationErrors := validationErrors + [MissingColumns(missing)];
      }
      if "Harga" in df.columns && !NumericColumn(df.Column("Harga")) {
        validationErrors := validationErrors + [NotNumeric("Harga")];
      }
      if "Ram" in df.columns && !NumericColumn(df.Column("Ram")) {
        validationErrors := validationErrors + [NotNumeric("Ram")];
      }
      assert validationErrors == (if missing != {} then [MissingColumns(missing)] else []) + TypeProblem(df, "Harga") + TypeProblem(df, "Ram");
      RecordNullProblems(CRITICAL_COLUMNS);
      valid := validationErrors == [];
    }

    /** The missing-cell check of `_validate_dataset` over the columns `cols`. */
    method RecordNullProblems(cols: seq<string>)
      modifies this`validationErrors
      ensures validationErrors == old(validationErrors) + NullProblems(df, cols)
    {
      for k := 0 to |cols|
        invariant validationErrors == old(validationErrors) + NullProblems(df, cols[..k])
      {
        var c := cols[k];
        NullProblemsStep(df, cols, k);
        if c in df.columns && NullCount(df.Column(c)) > 0 {
          validationErrors := validationErrors + [HasNulls(c, NullCount(df.Column(c)))];
        }
      }
      assert cols[..|cols|] == cols;
    }

    /**
     * `get_statistics`: fails before loading (and where the price column has
     * no number to convert); otherwise summarises the catalog.
     */
    method GetStatistics() returns (r: Result<Statistics>)
      ensures !isLoaded ==> r.Err?
      ensures isLoaded ==> (r.Err? <==> PriceSummary(df).Err?)
      ensures r.Ok? ==>
        && r.value.totalPhones == |df.rows|
        && r.value.columns == df.columns
        && r.value.brandList == (if "Brand" in df.columns then Preprocessing.Unique(df.Column("Brand")) else [])
        && r.value.brands == (if "Brand" in df.columns
                              then |Preprocessing.Unique(Filter(df.Column("Brand"), (v: Value) => !IsMissing(v)))| else 0)
        && r.value.priceRange == PriceSummary(df).value
        && r.value.ramOptions == (if "Ram" in df.columns then Options(df.Column("Ram")) else [])
        && r.value.storageOptions == (if "Memori_internal" in df.columns then Options(df.Column("Memori_internal")) else [])
        && (forall c :: c in r.value.missingValues <==> c in df.columns)
        && (forall c :: c in r.value.missingValues ==> r.value.missingValues[c] == NullCount(df.Column(c)))
    {
      if !isLoaded {
        return Err("Dataset belum dimuat. Panggil load() terlebih dahulu.");
      }
      var hasBrand := "Brand" in df.columns;
      var price := PriceSummary(df);
      if price.Err? {
        return Err(price.error);
      }
      var missing := map c | c in df.columns :: NullCount(df.Column(c));
      r := Ok(Statistics(
        |df.rows|,
        |df.columns|,
        df.columns,
        if hasBrand then |Preprocessing.Unique(Filter(df.Column("Brand"), (v: Value) => !IsMissing(v)))| else 0,
        if hasBrand then Preprocessing.Unique(df.Column("Brand")) else [],
        price.value,
        if "Ram" in df.columns then Options(df.Column("Ram")) else [],
        if "Memori_internal" in df.columns then Options(df.Column("Memori_internal")) else [],
        missing));
    }

    /**
     * `get_unique_values`: loads `file` first if needed; fails for an unknown
     * column; otherwise the column's present values, each once, in order of
     * first appearance.
     */
    method GetUniqueValues(column: string, file: Frame) returns (r: Result<seq<Value>>)
      modifies this
      ensures old(isLoaded) ==> df == old(df) && validationErrors == old(validationErrors)
      ensures !old(isLoaded) ==> df == file && validationErrors == Problems(file)
      ensures isLoaded
      ensures r.Err? <==> column !in df.columns
      ensures r.Ok? ==> forall v :: v in r.value <==> v in df.Column(column) && !IsMissing(v)
      ensures r.Ok? ==> forall i, j :: 0 <= i < j < |r.value| ==> r.value[i] != r.value[j]
      ensures r.Ok? ==> var present := Filter(df.Column(column), (v: Value) => !IsMissing(v));
        forall i, j :: 0 <= i < j < |r.value| ==>
          Preprocessing.FirstIndex(present, r.value[i]) < Preprocessing.FirstIndex(present, r.value[j])
    {
      if !isLoaded {
        var _ := Load(file, true);
      }
      if column !in df.columns {
        return Err("Kolom '" + column + "' tidak ditemukan dalam dataset");
      }
      var present := Filter(df.Column(column), (v: Value) => !IsMissing(v));
      Preprocessing.UniqueInFirstAppearanceOrder(present);
      r := Ok(Preprocessing.Unique(present));
    }

    /**
     * `filter_by_criteria`: loads `file` first if needed, then narrows a copy
     * of the catalog criterion by criterion; the result keeps, in order,
     * exactly the rows that pass every criterion.
     */
    method FilterByCriteria(criteria: seq<(string, Criterion)>, file: Frame) returns (r: Frame)
      modifies this
      ensures old(isLoaded) ==> df == old(df) && validationErrors == old(validationErrors)
      ensures !old(isLoaded) ==> df == file && validationErrors == Problems(file)
      ensures isLoaded
      ensures r.columns == df.columns
      ensures r.rows == Filter(df.rows, MatchesAll(df.columns, criteria))
    {
      if !isLoaded {
        var _ := Load(file, true);
      }
      var cols := df.columns;
      var rows := df.rows;
      FilterKeepsAll(rows, MatchesAll(cols, criteria[..0]));
      ghost var loaded, errors := df, validationErrors;
      for k := 0 to |criteria|
        invariant df == loaded && validationErrors == errors && isLoaded
        invariant rows == Filter(df.rows, MatchesAll(cols, criteria[..k]))
      {
        var (c, crit) := criteria[k];
        ApplyCriterionIsFilter(rows, cols, c, crit);
        MatchesAllExtend(df.rows, cols, criteria, k);
        rows := ApplyCriterion(rows, cols, c, crit);
      }
      assert criteria[..|criteria|] == criteria;
      r := Frame(cols, rows);
    }

    /**
     * `add_new_case`: loads `file` first if needed, gives the phone the id
     * one above the largest id, and appends it as the last row.
     */
    method AddNewCase(phone: seq<(string, Value)>, file: Frame) returns (r: Result<Row>)
      modifies this
      ensures var base := if old(isLoaded) then old(df) else file;
        && (r.Err? <==> "Id_hp" !in base.columns)
        && (r.Err? ==> df == base)
        && (r.Ok? ==>
              && r.value == RecordRow(phone)["Id_hp" := NextId(base.Column("Id_hp"))]
              && df.rows == base.rows + [r.value]
              && df.columns == Extended(base.columns, phone))
      ensures isLoaded
    {
      if !isLoaded {
        var _ := Load(file, true);
      }
      if "Id_hp" !in df.columns {
        return Err("KeyError: 'Id_hp'");
      }
      var newId := NextId(df.Column("Id_hp"));
      var row := RecordRow(phone)["Id_hp" := newId];
      df := Frame(Extended(df.columns, phone), df.rows + [row]);
      r := Ok(row);
    }

    /**
     * `split_train_test`: the rows reordered by `perm` (the shuffle), cut at
     * `int(n * ratio)` into a training part and the rest.
     */
    method SplitTrainTest(trainRatio: real, perm: seq<nat>, file: Frame) returns (train: Frame, test: Frame)
      modifies this
      requires IsPermutation(perm, |(if isLoaded then df else file).rows|)
      ensures old(isLoaded) ==> df == old(df) && validationErrors == old(validationErrors)
      ensures !old(isLoaded) ==> df == file && validationErrors == Problems(file)
      ensures var shuffled := Shuffled(df.rows, perm); var cut := SplitPoint(|df.rows|, trainRatio);
        && train.rows == Take(shuffled, cut) && test.rows == Drop(shuffled, cut)
        && train.rows + test.rows == shuffled
        && (0 <= cut <= |df.rows| ==> |train.rows| == cut && |test.rows| == |df.rows| - cut)
      ensures train.columns == df.columns && test.columns == df.columns
    {
      if !isLoaded {
        var _ := Load(file, true);
      }
      var shuffled := Shuffled(df.rows, perm);
      var splitIdx := SplitPoint(|shuffled|, trainRatio);
      train := Frame(df.columns, Take(shuffled, splitIdx));
      test := Frame(df.columns, Drop(shuffled, splitIdx));
    }
  }

  /** `int(n * ratio)`: for a ratio in [0, 1] a cut inside the frame. */
  function SplitPoint(n: nat, ratio: real): (k: int)
    ensures 0.0 <= ratio <= 1.0 ==> 0 <= k <= n
  {
    var p := n as real * ratio;
    if 0.0 <= ratio <= 1.0 then
      MultiplyAtMostOne(n as real, ratio);
      TruncWithin(p, n);
      Trunc(p)
    else
      Trunc(p)
  }

  lemma TruncWithin(p: real, n: nat)
    requires 0.0 <= p <= n as real
    ensures 0 <= Trunc(p) <= n
  {
  }

  lemma MultiplyAtMostOne(x: real, r: real)
    requires 0.0 <= x && 0.0 <= r <= 1.0
    ensures 0.0 <= x * r <= x
  {
  }

  /** `ids.max() + 1`: `NaN` where the column has no number. */
  function NextId(ids: seq<Value>): (r: Value)
    ensures r.Num? || r.NaN?
    ensures r.NaN? <==> forall i :: 0 <= i < |ids| ==> !IsFinite(ids[i])
    ensures r.Num? ==> forall i :: 0 <= i < |ids| && IsFinite(ids[i]) ==> AsReal(ids[i]) < r.x
  {
    Preprocessing.ColumnRange(ids);
    match Preprocessing.ColumnMax(ids)
    case Num(m) => Num(m + 1.0)
    case _ => NaN
  }

  /** A dict of cells as a row. */
  function RecordRow(phone: seq<(string, Value)>): (r: Row)
    ensures forall k :: k in r <==> exists i :: 0 <= i < |phone| && phone[i].0 == k
  {
    if phone == [] then map[]
    else
      var n := |phone| - 1;
      var r := RecordRow(phone[..n])[phone[n].0 := phone[n].1];
      assert forall i :: 0 <= i < n ==> phone[..n][i] == phone[i];
      r
  }

  /** With distinct keys, the row holds each entry's own value. */
  lemma {:induction false} RecordRowHolds(phone: seq<(string, Value)>, i: nat)
    requires i < |phone|
    requires forall j, k :: 0 <= j < k < |phone| ==> phone[j].0 != phone[k].0
    ensures phone[i].0 in RecordRow(phone) && RecordRow(phone)[phone[i].0] == phone[i].1
  {
    var n := |phone| - 1;
    if i < n {
      assert phone[..n][i] == phone[i];
      RecordRowHolds(phone[..n], i);
    }
  }

  /** The columns of `pd.concat([df, new_row])`: the frame's, then the new row's other keys in order. */
  function Extended(columns: seq<string>, phone: seq<(string, Value)>): (r: seq<string>)
    ensures columns <= r
    ensures forall c :: c in r <==> c in columns || exists i :: 0 <= i < |phone| && phone[i].0 == c
  {
    if phone == [] then columns
    else
      var n := |phone| - 1;
      var init := Extended(columns, phone[..n]);
      assert forall i :: 0 <= i < n ==> phone[..n][i] == phone[i];
      if phone[n].0 in init then init else init + [phone[n].0]
  }

  /** The ids of the rows: no two finite ids are equal. */
  ghost predicate DistinctIds(rows: seq<Row>)
  {
    forall i, j :: 0 <= i < j < |rows| && IsFinite(Get(rows[i], "Id_hp", NaN)) && IsFinite(Get(rows[j], "Id_hp", NaN)) ==>
      AsReal(Get(rows[i], "Id_hp", NaN)) != AsReal(Get(rows[j], "Id_hp", NaN))
  }

  /** Appending a phone with `NextId` keeps the ids distinct. */
  lemma NextIdKeepsIdsDistinct(columns: seq<string>, rows: seq<Row>, phone: seq<(string, Value)>)
    requires DistinctIds(rows)
    ensures DistinctIds(rows + [RecordRow(phone)["Id_hp" := NextId(Frame(columns, rows).Column("Id_hp"))]])
  {
    var ids := Frame(columns, rows).Column("Id_hp");
    var row := RecordRow(phone)["Id_hp" := NextId(ids)];
    var all := rows + [row];
    forall i, j | 0 <= i < j < |all| && IsFinite(Get(all[i], "Id_hp", NaN)) && IsFinite(Get(all[j], "Id_hp", NaN))
      ensures AsReal(Get(all[i], "Id_hp", NaN)) != AsReal(Get(all[j], "Id_hp", NaN))
    {
      if j == |rows| {
        assert ids[i] == Get(rows[i], "Id_hp", NaN);
      }
    }
  }

  ghost predicate IsPermutation(perm: seq<nat>, n: nat)
  {
    && |perm| == n
    && (forall i :: 0 <= i < n ==> perm[i] < n)
    && (forall i, j :: 0 <= i < j < n ==> perm[i] != perm[j])
  }

  /** `df.sample(frac=1)` for the permutation the random generator chose. */
  function Shuffled(rows: seq<Row>, perm: seq<nat>): (r: seq<Row>)
    requires forall i :: 0 <= i < |perm| ==> perm[i] < |rows|
    ensures |r| == |perm| && forall i :: 0 <= i < |perm| ==> r[i] == rows[perm[i]]
  {
    seq(|perm|, i requires 0 <= i < |perm| => rows[perm[i]])
  }
}
