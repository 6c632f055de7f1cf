/**
 * The label-regeneration script: a second ground-truth labeller that reads
 * RAM, battery, screen size and the camera text, with defaults for absent
 * cells, and applies four rules in order; the first that holds decides.
 */
module RegenerateLabels {
  import opened Wrappers
  import opened Values
  import opened Text
  import Evaluator

  const LABEL: string := "Label"

  // ---------------------------------------------------------------- int()

  /** Decimal digits, with single underscores allowed between two digits. */
  predicate IsDigitGroups(t: string)
  {
    && t != [] && IsDigit(t[0]) && IsDigit(t[|t| - 1])
    && (forall i :: 0 <= i < |t| ==> IsDigit(t[i]) || t[i] == '_')
    && (forall i :: 0 <= i < |t| - 1 && t[i] == '_' ==> IsDigit(t[i + 1]))
  }

  function DropUnderscores(t: string): (r: string)
    requires forall i :: 0 <= i < |t| ==> IsDigit(t[i]) || t[i] == '_'
    ensures forall i :: 0 <= i < |r| ==> IsDigit(r[i])
  {
    if t == [] then [] else (if t[0] == '_' then [] else [t[0]]) + DropUnderscores(t[1..])
  }

  /** Without underscores there is nothing to drop. */
  lemma {:induction false} DropUnderscoresOfDigits(ds: string)
    requires forall i :: 0 <= i < |ds| ==> IsDigit(ds[i])
    ensures DropUnderscores(ds) == ds
  {
    if ds != [] {
      DropUnderscoresOfDigits(ds[1..]);
    }
  }

  /** `int(s)` on an unsigned numeral. */
  function UnsignedInt(t: string): Option<nat>
  {
    if IsDigitGroups(t) then Some(DigitsValue(DropUnderscores(t))) else None
  }

  /**
   * Python's `int(s)` on a string, `None` where it raises `ValueError`:
   * surrounding whitespace, an optional sign, then decimal digits.
   */
  function PythonInt(s: string): (r: Option<int>)
  {
    SignedInt(Strip(s))
  }

  /** A numeral with an optional sign in front. */
  function SignedInt(t: string): (r: Option<int>)
  {
    if t != [] && (t[0] == '+' || t[0] == '-') then
      match UnsignedInt(t[1..])
      case None => None
      case Some(n) => var k: int := n; Some(if t[0] == '-' then -k else k)
    else UnsignedInt(t)
  }

  /** A text that starts and ends with a non-space is its own strip. */
  lemma StripUnspaced(w: string)
    requires w != [] && !IsSpace(w[0]) && !IsSpace(w[|w| - 1])
    ensures Strip(w) == w
  {
    assert StripLeft(w) == w;
  }

  /** An unsigned numeral without underscores reads as its digits' value. */
  lemma UnsignedDigits(ds: string)
    requires ds != [] && forall i :: 0 <= i < |ds| ==> IsDigit(ds[i])
    ensures UnsignedInt(ds) == Some(DigitsValue(ds))
  {
    DropUnderscoresOfDigits(ds);
    assert IsDigitGroups(ds);
  }

  /** `int(str(n)) == n`. */
  lemma PythonIntReadsBack(n: int)
    ensures PythonInt(IntString(n)) == Some(n)
  {
    var m: nat := if n < 0 then -n else n;
    var ds := NatString(m);
    NatStringValue(m);
    UnsignedDigits(ds);
    assert IsDigit(ds[0]) && IsDigit(ds[|ds| - 1]);
    if n < 0 {
      assert IntString(n) == "-" + ds;
      SignedReadsBack(ds, m);
    } else {
      assert IntString(n) == ds;
      UnsignedReadsBack(ds, m);
    }
  }

  lemma UnsignedReadsBack(ds: string, v: nat)
    requires ds != [] && IsDigit(ds[0]) && IsDigit(ds[|ds| - 1]) && UnsignedInt(ds) == Some(v)
    ensures PythonInt(ds) == Some(v)
  {
    StripUnspaced(ds);
    UnsignedNumeral(ds, v);
    assert PythonInt(ds) == SignedInt(ds);
  }

  lemma UnsignedNumeral(ds: string, v: nat)
    requires ds != [] && IsDigit(ds[0]) && UnsignedInt(ds) == Some(v)
    ensures SignedInt(ds) == Some(v)
  {
  }

  lemma SignedReadsBack(ds: string, v: nat)
    requires ds != [] && IsDigit(ds[|ds| - 1]) && UnsignedInt(ds) == Some(v)
    ensures PythonInt("-" + ds) == Some(-(v as int))
  {
    var w := "-" + ds;
    assert w[|w| - 1] == ds[|ds| - 1];
    StripUnspaced(w);
    NegativeNumeral(ds, v);
    assert PythonInt(w) == SignedInt(w);
  }

  lemma NegativeNumeral(ds: string, v: nat)
    requires UnsignedInt(ds) == Some(v)
    ensures SignedInt("-" + ds) == Some(-(v as int))
  {
    var w := "-" + ds;
    assert w[0] == '-' && w[1..] == ds;
  }

  // ---------------------------------------------------------------- camera

  /**
   * The camera resolution `assign_label` reads: 12 unless the cell's text
   * holds "MP" and what is left without it reads as an integer. Only a
   * string cell can do that: a number, a boolean, `None` or `nan` prints
   * without "MP", and a list prints with a bracket `int` rejects.
   */
  function CameraMp(v: Value): int
  {
    if v.Str? && Contains(v.s, "MP") then PythonInt(Strip(ReplaceAll(v.s, "MP", ""))).GetOr(12) else 12
  }

  lemma {:induction false} ContainsSuffix(w: string, p: string)
    ensures Contains(w + p, p)
  {
    if w != [] {
      assert (w + p)[1..] == w[1..] + p;
      ContainsSuffix(w[1..], p);
    }
  }

  /** Removing "MP" from a text holding no 'M' before a final "MP" leaves that text. */
  lemma {:induction false} ReplaceFinalMp(w: string, rest: string)
    requires forall i :: 0 <= i < |w| ==> w[i] != 'M'
    requires rest == "MP"
    ensures ReplaceAll(w + rest, "MP", "") == w
  {
    var s := w + rest;
    if w == [] {
      assert s[..2] == "MP" && s[2..] == [];
    } else {
      assert s[0] == w[0] != 'M';
      assert s[1..] == w[1..] + rest;
      ReplaceFinalMp(w[1..], rest);
    }
  }

  lemma IntStringHasNoM(n: int)
    ensures forall i :: 0 <= i < |IntString(n)| ==> IntString(n)[i] != 'M' && !IsSpace(IntString(n)[i])
  {
    var m: nat := if n < 0 then -n else n;
    var ds := NatString(m);
    assert forall i :: 0 <= i < |ds| ==> IsDigit(ds[i]);
    if n < 0 {
      assert forall i :: 1 <= i < |"-" + ds| ==> ("-" + ds)[i] == ds[i - 1];
    }
  }

  /** A camera text `"<n>MP"` or `"<n> MP"` reads as `n`, whatever the sign of `n`. */
  lemma CameraMpReadsBack(n: int)
    ensures CameraMp(Str(IntString(n) + "MP")) == n
    ensures CameraMp(Str(IntString(n) + " MP")) == n
  {
    var w := IntString(n);
    IntStringHasNoM(n);
    PythonIntReadsBack(n);
    assert w != [] by { assert |NatString(if n < 0 then -n else n)| > 0; }
    NumeralThenMp(w, n);
    NumeralSpaceMp(w, n);
  }

  lemma NumeralThenMp(w: string, n: int)
    requires w != [] && forall i :: 0 <= i < |w| ==> w[i] != 'M' && !IsSpace(w[i])
    requires PythonInt(w) == Some(n)
    ensures CameraMp(Str(w + "MP")) == n
  {
    ContainsSuffix(w, "MP");
    ReplaceFinalMp(w, "MP");
    StripUnspaced(w);
  }

  lemma NumeralSpaceMp(w: string, n: int)
    requires w != [] && forall i :: 0 <= i < |w| ==> w[i] != 'M' && !IsSpace(w[i])
    requires PythonInt(w) == Some(n)
    ensures CameraMp(Str(w + " MP")) == n
  {
    var v := w + " ";
    forall i | 0 <= i < |v| ensures v[i] != 'M' {
      if i < |w| { assert v[i] == w[i]; }
    }
    assert v + "MP" == w + " MP";
    ContainsSuffix(v, "MP");
    ReplaceFinalMp(v, "MP");
    StripTrailingSpace(w);
    assert CameraMp(Str(w + " MP")) == PythonInt(Strip(v)).GetOr(12);
  }

  lemma StripTrailingSpace(w: string)
    requires w != [] && !IsSpace(w[0]) && !IsSpace(w[|w| - 1])
    ensures Strip(w + " ") == w
  {
    var v := w + " ";
    assert StripLeft(v) == v;
    assert v[..|v| - 1] == w;
    assert StripRight(w) == w;
  }

  // ---------------------------------------------------------------- the rules

  /** Python's `a and b` on two comparisons: `b` is evaluated only when `a` held. */
  function AndThen(a: Result<bool>, b: Result<bool>): (r: Result<bool>)
    ensures r == Ok(true) <==> a == Ok(true) && b == Ok(true)
    ensures r.Err? <==> a.Err? || (a == Ok(true) && b.Err?)
  {
    if a.Err? || !a.value then a else b
  }

  /** The cells `assign_label` reads, each with its default for an absent key. */
  function Ram(row: Row): Value { Get(row, "Ram", Num(8.0)) }
  function Battery(row: Row): Value { Get(row, "Kapasitas_baterai", Num(4500.0)) }
  function Screen(row: Row): Value { Get(row, "Ukuran_layar", Num(6.0)) }
  function Camera(row: Row): int { CameraMp(Get(row, "Resolusi_kamera", Str("12MP"))) }

  /**
   * `assign_label`: Gaming for 12 GB of RAM, a 5000 mAh battery and a
   * 6.5-inch screen; else Photographer for a 64 MP camera; else Gaming for
   * 16 GB of RAM and a 4500 mAh battery; else Photographer for a 50 MP
   * camera and a 6.4-inch screen; else Daily. The price is read but not
   * used. A compared cell that is not a number raises.
   */
  function AssignLabel(row: Row): (r: Result<Value>)
    ensures r.Ok? ==> r.value in Evaluator.LABELS
  {
    Decide(Ram(row), Battery(row), Screen(row), Camera(row))
  }

  /** The four rules of `assign_label` on the values it read. */
  function Decide(ram: Value, battery: Value, screen: Value, camera: int): (r: Result<Value>)
    ensures r.Ok? ==> r.value in Evaluator.LABELS
  {
    var first := FirstRule(ram, battery, screen);
    if first.Err? then Err(first.error)
    else if first.value then Ok(Evaluator.GAMING)
    else if camera >= 64 then Ok(Evaluator.PHOTOGRAPHER)
    else
      var third := ThirdRule(ram, battery);
      if third.Err? then Err(third.error)
      else if third.value then Ok(Evaluator.GAMING)
      else
        var fourth := FourthRule(screen, camera);
        if fourth.Err? then Err(fourth.error)
        else if fourth.value then Ok(Evaluator.PHOTOGRAPHER)
        else Ok(Evaluator.DAILY)
  }

  /** `ram >= 12 and baterai >= 5000 and ukuran_layar >= 6.5`, compared left to right. */
  function FirstRule(ram: Value, battery: Value, screen: Value): (r: Result<bool>)
    ensures r.Err? <==> !IsNumber(ram) || (Meets(ram, 12.0) && !IsNumber(battery))
                        || (Meets(ram, 12.0) && Meets(battery, 5000.0) && !IsNumber(screen))
    ensures r.Ok? ==> (r.value <==> FlagshipGaming(ram, battery, screen))
  {
    AndThen(AndThen(AtLeast(ram, 12.0), AtLeast(battery, 5000.0)), AtLeast(screen, 6.5))
  }

  /** `ram >= 16 and baterai >= 4500`, compared left to right. */
  function ThirdRule(ram: Value, battery: Value): (r: Result<bool>)
    ensures r.Err? <==> !IsNumber(ram) || (Meets(ram, 16.0) && !IsNumber(battery))
    ensures r.Ok? ==> (r.value <==> FallbackGaming(ram, battery))
  {
    AndThen(AtLeast(ram, 16.0), AtLeast(battery, 4500.0))
  }

  /** `kamera_mp >= 50 and ukuran_layar >= 6.4`: the screen is compared only for a 50 MP camera. */
  function FourthRule(screen: Value, camera: int): (r: Result<bool>)
    ensures r.Err? <==> camera >= 50 && !IsNumber(screen)
    ensures r.Ok? ==> (r.value <==> camera >= 50 && Meets(screen, 6.4))
  {
    if camera < 50 then Ok(false) else AtLeast(screen, 6.4)
  }

  /** The first rule: a big gaming phone. */
  predicate FlagshipGaming(ram: Value, battery: Value, screen: Value)
  {
    Meets(ram, 12.0) && Meets(battery, 5000.0) && Meets(screen, 6.5)
  }

  /** The third rule: a gaming phone by RAM and battery alone. */
  predicate FallbackGaming(ram: Value, battery: Value)
  {
    Meets(ram, 16.0) && Meets(battery, 4500.0)
  }


  /**
   * The rules reach a cell that is not a number exactly when the RAM is
   * not one, the battery is not one behind 12 GB of RAM, or the screen is
   * not one behind the first rule's RAM and battery or behind a 50 to 63 MP
   * camera that the fallback gaming rule did not take.
   */
  predicate Raises(ram: Value, battery: Value, screen: Value, camera: int)
  {
    || !IsNumber(ram)
    || (Meets(ram, 12.0) && !IsNumber(battery))
    || (!IsNumber(screen) && ((Meets(ram, 12.0) && Meets(battery, 5000.0))
                              || (50 <= camera < 64 && !FallbackGaming(ram, battery))))
  }

  /**
   * The label by the rules stated all at once: an error exactly when a
   * reached cell is not a number; otherwise Gaming by the first or, below
   * 64 MP, the third rule; Photographer by a 64 MP camera or by a 50 MP
   * camera with a 6.4-inch screen when neither gaming rule applies; Daily
   * when no rule applies.
   */
  lemma AssignLabelSpec(row: Row)
    ensures var ram, battery, screen, camera := Ram(row), Battery(row), Screen(row), Camera(row);
      var raises := Raises(ram, battery, screen, camera);
      var big, fast := FlagshipGaming(ram, battery, screen), FallbackGaming(ram, battery);
      && (AssignLabel(row).Err? <==> raises)
      && (AssignLabel(row) == Ok(Evaluator.GAMING) <==> !raises && (big || (camera < 64 && fast)))
      && (AssignLabel(row) == Ok(Evaluator.PHOTOGRAPHER) <==>
            !raises && !big && (camera >= 64 || (!fast && camera >= 50 && Meets(screen, 6.4))))
      && (AssignLabel(row) == Ok(Evaluator.DAILY) <==>
            !raises && !big && camera < 64 && !fast && !(camera >= 50 && Meets(screen, 6.4)))
  {
    DecideSpec(Ram(row), Battery(row), Screen(row), Camera(row));
  }

  lemma DecideSpec(ram: Value, battery: Value, screen: Value, camera: int)
    ensures var r := Decide(ram, battery, screen, camera);
      var raises := Raises(ram, battery, screen, camera);
      var big, fast := FlagshipGaming(ram, battery, screen), FallbackGaming(ram, battery);
      && (r.Err? <==> raises)
      && (r == Ok(Evaluator.GAMING) <==> !raises && (big || (camera < 64 && fast)))
      && (r == Ok(Evaluator.PHOTOGRAPHER) <==> !raises && !big && (camera >= 64 || (!fast && camera >= 50 && Meets(screen, 6.4))))
      && (r == Ok(Evaluator.DAILY) <==> !raises && !big && camera < 64 && !fast && !(camera >= 50 && Meets(screen, 6.4)))
  {
    DecideByRules(ram, battery, screen, camera);
    assert Meets(ram, 16.0) ==> Meets(ram, 12.0);
  }

  /** The decision in terms of the three comparisons' outcomes. */
  lemma DecideByRules(ram: Value, battery: Value, screen: Value, camera: int)
    ensures var r := Decide(ram, battery, screen, camera);
      var f, t, u := FirstRule(ram, battery, screen), ThirdRule(ram, battery), FourthRule(screen, camera);
      && (r.Err? <==> f.Err? || (f == Ok(false) && camera < 64 && (t.Err? || (t == Ok(false) && u.Err?))))
      && (r == Ok(Evaluator.GAMING) <==> f == Ok(true) || (f == Ok(false) && camera < 64 && t == Ok(true)))
      && (r == Ok(Evaluator.PHOTOGRAPHER) <==> f == Ok(false) && (camera >= 64 || (t == Ok(false) && u == Ok(true))))
      && (r == Ok(Evaluator.DAILY) <==> f == Ok(false) && camera < 64 && t == Ok(false) && u == Ok(false))
  {
    GamingByRules(ram, battery, screen, camera);
    PhotographerByRules(ram, battery, screen, camera);
    DailyByRules(ram, battery, screen, camera);
  }

  lemma GamingByRules(ram: Value, battery: Value, screen: Value, camera: int)
    ensures var f, t := FirstRule(ram, battery, screen), ThirdRule(ram, battery);
      Decide(ram, battery, screen, camera) == Ok(Evaluator.GAMING) <==> f == Ok(true) || (f == Ok(false) && camera < 64 && t == Ok(true))
  {
  }

  lemma PhotographerByRules(ram: Value, battery: Value, screen: Value, camera: int)
    ensures var f, t, u := FirstRule(ram, battery, screen), ThirdRule(ram, battery), FourthRule(screen, camera);
      Decide(ram, battery, screen, camera) == Ok(Evaluator.PHOTOGRAPHER) <==> f == Ok(false) && (camera >= 64 || (t == Ok(false) && u == Ok(true)))
  {
  }

  lemma DailyByRules(ram: Value, battery: Value, screen: Value, camera: int)
    ensures var f, t, u := FirstRule(ram, battery, screen), ThirdRule(ram, battery), FourthRule(screen, camera);
      Decide(ram, battery, screen, camera) == Ok(Evaluator.DAILY) <==> f == Ok(false) && camera < 64 && t == Ok(false) && u == Ok(false)
  {
  }

  /** The cells the rules read. */
  const READ_KEYS: set<string> := {"Ram", "Kapasitas_baterai", "Ukuran_layar", "Resolusi_kamera"}

  /** Any other cell, the price and the rating among them, leaves the label as it is. */
  lemma OnlyReadCellsMatter(row: Row, key: string, v: Value)
    requires key !in READ_KEYS
    ensures AssignLabel(row[key := v]) == AssignLabel(row)
  {
    var z := row[key := v];
    assert Ram(z) == Ram(row) && Battery(z) == Battery(row) && Screen(z) == Screen(row);
    assert Camera(z) == Camera(row);
  }

  /**
   * A row without any of the four cells is labelled with the defaults
   * (8 GB, 4500 mAh, 6.0 inches, "12MP"), which meet no rule: Daily.
   */
  lemma EmptyRowIsDaily()
    ensures AssignLabel(map[]) == Ok(Evaluator.DAILY)
  {
    var empty: Row := map[];
    DefaultCamera("12MP");
    assert Ram(empty) == Num(8.0) && Battery(empty) == Num(4500.0) && Screen(empty) == Num(6.0);
    DefaultsDecide();
  }

  lemma DefaultCamera(text: string)
    requires text == "12MP"
    ensures CameraMp(Str(text)) == 12
  {
    var w := ['1', '2'];
    TwelveReads(w);
    assert w + "MP" == text;
    NumeralThenMp(w, 12);
  }

  lemma TwelveReads(w: string)
    requires w == ['1', '2']
    ensures w != [] && forall i :: 0 <= i < |w| ==> w[i] != 'M' && !IsSpace(w[i])
    ensures PythonInt(w) == Some(12)
  {
    assert DigitsValue(w) == 12 by {
      assert w[..1] == ['1'] && ['1'][..0] == [];
    }
    UnsignedDigits(w);
    UnsignedReadsBack(w, 12);
  }

  lemma DefaultsDecide()
    ensures Decide(Num(8.0), Num(4500.0), Num(6.0), 12) == Ok(Evaluator.DAILY)
  {
    assert FirstRule(Num(8.0), Num(4500.0), Num(6.0)) == Ok(false);
    assert ThirdRule(Num(8.0), Num(4500.0)) == Ok(false);
  }

  // ---------------------------------------------------------------- the column

  /** `regenerate_labels` on the loaded frame: the `Label` column becomes `assign_label` of every row. */
  function Relabel(df: Frame): Result<Frame>
  {
    match ApplyRows(df.rows, AssignLabel)
    case Err(e) => Err(e)
    case Ok(ls) => Ok(df.WithColumn(LABEL, ls))
  }

  /**
   * Regeneration raises exactly when some row's label does; otherwise every
   * row keeps its other cells and gets its own rule-based label, and the
   * old labels play no part.
   */
  lemma RelabelSpec(df: Frame)
    ensures Relabel(df).Err? <==> exists i :: 0 <= i < |df.rows| && AssignLabel(df.rows[i]).Err?
    ensures Relabel(df).Ok? ==>
      var out := Relabel(df).value;
      && LABEL in out.columns && (forall c :: c in df.columns ==> c in out.columns)
      && |out.rows| == |df.rows|
      && forall i :: 0 <= i < |df.rows| ==>
           && AssignLabel(df.rows[i]) == Ok(out.rows[i][LABEL])
           && out.rows[i][LABEL] in Evaluator.LABELS
           && forall c :: c in df.rows[i] && c != LABEL ==> c in out.rows[i] && out.rows[i][c] == df.rows[i][c]
  {
    var r := ApplyRows(df.rows, AssignLabel);
    ApplyRowsSpec(df.rows, AssignLabel);
    if r.Ok? {
      forall i | 0 <= i < |df.rows| ensures AssignLabel(df.rows[i]).Ok? {
        assert AssignLabel(df.rows[i]) == Ok(r.value[i]);
      }
    }
  }

  /** Relabelling twice gives the same frame as relabelling once: the old `Label` column is never read. */
  lemma RelabelIdempotent(df: Frame)
    requires Relabel(df).Ok?
    ensures Relabel(Relabel(df).value) == Relabel(df)
  {
    var ls := ApplyRows(df.rows, AssignLabel).value;
    var out := df.WithColumn(LABEL, ls);
    assert Relabel(df) == Ok(out);
    LabelsIgnoreLabelColumn(df, ls);
    ApplyRowsPointwise(out.rows, df.rows, AssignLabel);
    assert Relabel(out) == Ok(out.WithColumn(LABEL, ls));
    df.WithColumnTwice(LABEL, ls);
  }

  /** Writing any `Label` column leaves every row's rule-based label as it was. */
  lemma LabelsIgnoreLabelColumn(df: Frame, ls: seq<Value>)
    requires |ls| == |df.rows|
    ensures forall i :: 0 <= i < |df.rows| ==> AssignLabel(df.WithColumn(LABEL, ls).rows[i]) == AssignLabel(df.rows[i])
  {
    forall i | 0 <= i < |df.rows|
      ensures AssignLabel(df.WithColumn(LABEL, ls).rows[i]) == AssignLabel(df.rows[i])
    {
      OnlyReadCellsMatter(df.rows[i], LABEL, ls[i]);
    }
  }
}
