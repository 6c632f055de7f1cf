/**
 * Cells, rows and frames: the pandas data the recommender works on.
 *
 * A cell is a number, a string, a boolean, a list of strings (only in user
 * input), Python's `None`, or pandas' missing value (`NaN`). The two kinds of
 * "nothing" behave differently in Python: `None` is falsy, `NaN` is truthy and
 * is a float, and both count as missing for `pd.isna`.
 */
module Values {
  import opened Wrappers
  import Sorting

  datatype Value = Num(x: real) | Str(s: string) | Bool(b: bool) | Strs(items: seq<string>) | Null | NaN

  /** `pd.isna(v)`. */
  predicate IsMissing(v: Value) { v.Null? || v.NaN? }

  /** `isinstance(v, (int, float))`: booleans are integers and `NaN` is a float. */
  predicate IsNumber(v: Value) { v.Num? || v.Bool? || v.NaN? }

  /** A number other than `NaN`. */
  predicate IsFinite(v: Value) { v.Num? || v.Bool? }

  function AsReal(v: Value): real
    requires IsFinite(v)
  {
    match v
    case Num(x) => x
    case Bool(b) => if b then 1.0 else 0.0
  }

  /** Python truthiness (`if v:`). */
  predicate Truthy(v: Value)
  {
    match v
    case Num(x) => x != 0.0
    case Str(s) => s != ""
    case Bool(b) => b
    case Strs(items) => items != []
    case Null => false
    case NaN => true
  }

  /** `v or 0` read as a number: a falsy or missing numeric cell counts as 0. */
  function OrZero(v: Value): real
  {
    if IsFinite(v) then AsReal(v) else 0.0
  }

  /** Python's name for the type of a cell that is not a number. */
  function TypeName(v: Value): string
  {
    match v
    case Str(_) => "str"
    case Strs(_) => "list"
    case Null => "NoneType"
    case _ => "float"
  }

  /**
   * Python's `v >= t` for a cell and a number: a comparison with `NaN` is
   * false, and `None`, a string or a list cannot be compared with a number.
   */
  function AtLeast(v: Value, t: real): (r: Result<bool>)
    ensures r.Err? <==> !IsNumber(v)
    ensures r.Ok? ==> (r.value <==> IsFinite(v) && AsReal(v) >= t)
  {
    if v.NaN? then Ok(false)
    else if IsFinite(v) then Ok(AsReal(v) >= t)
    else Err("TypeError: '>=' not supported between instances of '" + TypeName(v) + "' and a number")
  }

  /** `v >= t` holds for a cell that is a number other than `NaN`. */
  predicate Meets(v: Value, t: real) { IsFinite(v) && AsReal(v) >= t }

  /** A record: a pandas row converted with `to_dict()`, or a Python dict of cells. */
  type Row = map<string, Value>

  /** `row.get(key, default)`. */
  function Get(row: Row, key: string, default: Value): Value
  {
    if key in row then row[key] else default
  }

  /** A data frame: its column names in order and its rows; positions are the index labels. */
  datatype Frame = Frame(columns: seq<string>, rows: seq<Row>)
  {
    predicate HasColumn(c: string) { c in columns }

    /** `df[c]` as a list of cells. */
    function Column(c: string): (col: seq<Value>)
      ensures |col| == |rows|
      ensures forall i :: 0 <= i < |rows| ==> col[i] == Get(rows[i], c, NaN)
    {
      seq(|rows|, i requires 0 <= i < |rows| => Get(rows[i], c, NaN))
    }

    /** `df[c] = values` for a list of one value per row. */
    function WithColumn(c: string, values: seq<Value>): (f: Frame)
      requires |values| == |rows|
      ensures |f.rows| == |rows|
      ensures f.columns == if c in columns then columns else columns + [c]
      ensures forall i :: 0 <= i < |rows| ==> f.rows[i] == rows[i][c := values[i]]
    {
      Frame(if c in columns then columns else columns + [c],
            seq(|rows|, i requires 0 <= i < |rows| => rows[i][c := values[i]]))
    }

    /** Writing the same column twice is writing it once. */
    lemma WithColumnTwice(c: string, values: seq<Value>)
      requires |values| == |rows|
      ensures WithColumn(c, values).WithColumn(c, values) == WithColumn(c, values)
    {
      var once := WithColumn(c, values);
      var twice := once.WithColumn(c, values);
      assert twice.columns == once.columns;
      forall i | 0 <= i < |rows| ensures twice.rows[i] == once.rows[i] {
        assert twice.rows[i] == rows[i][c := values[i]][c := values[i]];
      }
    }
  }

  /** Two frames with the same columns and rows that read alike: `row.get(d)` agrees everywhere. */
  ghost predicate SameCells(a: Frame, b: Frame)
  {
    && a.columns == b.columns
    && |a.rows| == |b.rows|
    && forall i, d :: 0 <= i < |a.rows| ==> Get(a.rows[i], d, NaN) == Get(b.rows[i], d, NaN)
  }

  /** Lexicographic order on strings by code point, as Python compares `str`. */
  predicate StrLe(a: string, b: string)
  {
    if a == [] then true
    else if b == [] then false
    else if a[0] != b[0] then a[0] < b[0]
    else StrLe(a[1..], b[1..])
  }

  lemma {:induction false} StrLeTotal(a: string, b: string)
    ensures StrLe(a, b) || StrLe(b, a)
  {
    if a != [] && b != [] && a[0] == b[0] { StrLeTotal(a[1..], b[1..]); }
  }

  lemma {:induction false} StrLeTransitive(a: string, b: string, c: string)
    requires StrLe(a, b) && StrLe(b, c)
    ensures StrLe(a, c)
  {
    if a != [] && b != [] && c != [] && a[0] == b[0] && b[0] == c[0] {
      StrLeTransitive(a[1..], b[1..], c[1..]);
    }
  }

  /** Kinds of cells in sort order: numbers, then strings, then lists, then missing. */
  function KindRank(v: Value): nat
  {
    if IsFinite(v) then 0 else if v.Str? then 1 else if v.Strs? then 2 else 3
  }

  /**
   * Ascending order on cells: numbers by value, strings lexicographically,
   * missing cells last. pandas refuses to compare numbers with strings; here
   * numbers simply come first.
   */
  predicate ValueLe(a: Value, b: Value)
  {
    if KindRank(a) != KindRank(b) then KindRank(a) < KindRank(b)
    else if IsFinite(a) then AsReal(a) <= AsReal(b)
    else if a.Str? then StrLe(a.s, b.s)
    else true
  }

  /** Descending order on cells; missing cells still come last, as `na_position='last'` does. */
  predicate ValueGe(a: Value, b: Value)
  {
    if IsMissing(a) || IsMissing(b) then ValueLe(a, b)
    else ValueLe(b, a)
  }

  lemma ValueLeIsPreorder()
    ensures Sorting.TotalPreorder(ValueLe)
  {
    forall a, b ensures ValueLe(a, b) || ValueLe(b, a) {
      if a.Str? && b.Str? { StrLeTotal(a.s, b.s); }
    }
    forall a, b, c | ValueLe(a, b) && ValueLe(b, c) ensures ValueLe(a, c) {
      if a.Str? && b.Str? && c.Str? { StrLeTransitive(a.s, b.s, c.s); }
    }
  }

  lemma ValueGeIsPreorder()
    ensures Sorting.TotalPreorder(ValueGe)
  {
    forall a, b ensures ValueGe(a, b) || ValueGe(b, a) {
      if a.Str? && b.Str? { StrLeTotal(a.s, b.s); }
    }
    forall a, b, c | ValueGe(a, b) && ValueGe(b, c) ensures ValueGe(a, c) {
      if a.Str? && b.Str? && c.Str? { StrLeTransitive(c.s, b.s, a.s); }
    }
  }

  /** `df.apply(f, axis=1)`: `f` of every row in order; the first row for which `f` raises stops it. */
  function ApplyRows<T>(rows: seq<Row>, f: Row -> Result<T>): (r: Result<seq<T>>)
    ensures r.Ok? ==> |r.value| == |rows|
  {
    if rows == [] then Ok([])
    else
      match ApplyRows(rows[..|rows| - 1], f)
      case Err(e) => Err(e)
      case Ok(xs) =>
        match f(rows[|rows| - 1])
        case Err(e) => Err(e)
        case Ok(x) => Ok(xs + [x])
  }

  /** Rows that `f` cannot tell apart give the same outcome. */
  lemma {:induction false} ApplyRowsPointwise<T>(xs: seq<Row>, ys: seq<Row>, f: Row -> Result<T>)
    requires |xs| == |ys| && forall i :: 0 <= i < |xs| ==> f(xs[i]) == f(ys[i])
    ensures ApplyRows(xs, f) == ApplyRows(ys, f)
  {
    if xs != [] {
      var n := |xs| - 1;
      ApplyRowsPointwise(xs[..n], ys[..n], f);
      assert f(xs[n]) == f(ys[n]);
    }
  }

  /**
   * Applying succeeds with one result per row, each `f` of its own row, or
   * fails with the error of the first row for which `f` fails.
   */
  lemma {:induction false} ApplyRowsSpec<T>(rows: seq<Row>, f: Row -> Result<T>)
    ensures var r := ApplyRows(rows, f);
      && (r.Ok? ==> |r.value| == |rows| && forall i :: 0 <= i < |rows| ==> f(rows[i]) == Ok(r.value[i]))
      && (r.Err? ==> exists i :: 0 <= i < |rows| && f(rows[i]) == Err(r.error) && forall k :: 0 <= k < i ==> f(rows[k]).Ok?)
  {
    if rows != [] {
      var n := |rows| - 1;
      var init := rows[..n];
      ApplyRowsSpec(init, f);
      assert forall i :: 0 <= i < n ==> init[i] == rows[i];
      var r := ApplyRows(rows, f);
      if ApplyRows(init, f).Err? {
        var i :| 0 <= i < n && f(init[i]) == Err(ApplyRows(init, f).error) && forall k :: 0 <= k < i ==> f(init[k]).Ok?;
        assert f(rows[i]) == Err(r.error);
      } else if f(rows[n]).Err? {
        assert f(rows[n]) == Err(r.error);
      }
    }
  }
}
