/**
 * The string operations the source relies on: case mapping, whitespace
 * stripping, substring search and replacement, and the two regular
 * expressions `(\d+)\s*MP` and `(\d+)` used by the camera-string parsers.
 * Case mapping, digits and whitespace are the ASCII ones.
 */
module Text {
  import opened Wrappers

  predicate IsDigit(c: char) { '0' <= c <= '9' }

  /** The characters `\s` and `str.strip()` treat as white space (ASCII subset). */
  predicate IsSpace(c: char) { c == ' ' || 9 <= c as int <= 13 || 28 <= c as int <= 31 }

  function UpperChar(c: char): char { if 'a' <= c <= 'z' then (c as int - 32) as char else c }
  function LowerChar(c: char): char { if 'A' <= c <= 'Z' then (c as int + 32) as char else c }

  /** `str.upper()`. */
  function Upper(s: string): (r: string)
    ensures |r| == |s| && forall i :: 0 <= i < |s| ==> r[i] == UpperChar(s[i])
  {
    if s == [] then [] else [UpperChar(s[0])] + Upper(s[1..])
  }

  /** `str.lower()`. */
  function Lower(s: string): (r: string)
    ensures |r| == |s| && forall i :: 0 <= i < |s| ==> r[i] == LowerChar(s[i])
  {
    if s == [] then [] else [LowerChar(s[0])] + Lower(s[1..])
  }

  /** `str.replace(' ', '')`. */
  function RemoveSpaces(s: string): (r: string)
    ensures |r| <= |s| && ' ' !in r
    ensures forall c :: c in r <==> c in s && c != ' '
  {
    if s == [] then [] else (if s[0] == ' ' then [] else [s[0]]) + RemoveSpaces(s[1..])
  }

  function StripLeft(s: string): (r: string)
    ensures r == [] || !IsSpace(r[0])
    ensures |r| <= |s| && r == s[|s| - |r|..]
  {
    if s != [] && IsSpace(s[0]) then StripLeft(s[1..]) else s
  }

  function StripRight(s: string): (r: string)
    ensures r == [] || !IsSpace(r[|r| - 1])
    ensures |r| <= |s| && r == s[..|r|]
  {
    if s != [] && IsSpace(s[|s| - 1]) then StripRight(s[..|s| - 1]) else s
  }

  /** `str.strip()`. */
  function Strip(s: string): (r: string)
    ensures r == [] || (!IsSpace(r[0]) && !IsSpace(r[|r| - 1]))
  {
    StripRight(StripLeft(s))
  }

  predicate StartsWith(s: string, p: string) { |p| <= |s| && s[..|p|] == p }

  /** `p in s` for strings. */
  predicate Contains(s: string, p: string)
  {
    StartsWith(s, p) || (s != [] && Contains(s[1..], p))
  }

  /** `s.replace(p, q)` for a non-empty pattern: left-to-right, non-overlapping. */
  function ReplaceAll(s: string, p: string, q: string): (r: string)
    requires p != []
    decreases |s|
  {
    if |s| < |p| then s
    else if s[..|p|] == p then q + ReplaceAll(s[|p|..], p, q)
    else [s[0]] + ReplaceAll(s[1..], p, q)
  }

  /** Without an occurrence of the pattern, `replace` changes nothing. */
  lemma {:induction false} ReplaceAllAbsent(s: string, p: string, q: string)
    requires p != [] && !Contains(s, p)
    ensures ReplaceAll(s, p, q) == s
    decreases |s|
  {
    if |s| >= |p| {
      ReplaceAllAbsent(s[1..], p, q);
    }
  }

  /** Decimal value of a digit string. */
  function DigitsValue(ds: string): nat
    requires forall i :: 0 <= i < |ds| ==> IsDigit(ds[i])
  {
    if ds == [] then 0 else 10 * DigitsValue(ds[..|ds| - 1]) + DigitValue(ds[|ds| - 1])
  }

  function DigitValue(c: char): (d: nat)
    requires IsDigit(c)
    ensures d < 10
  {
    c as int - '0' as int
  }

  /** Length of the run of characters satisfying `p` at the front of `s`. */
  function RunLength(s: string, p: char -> bool): (n: nat)
    ensures n <= |s|
    ensures forall i :: 0 <= i < n ==> p(s[i])
    ensures n == |s| || !p(s[n])
  {
    if s == [] || !p(s[0]) then 0 else 1 + RunLength(s[1..], p)
  }

  /**
   * The regular expression `(\d+)\s*MP` matches at the start of `u`: the
   * greedy digit run there is followed by optional white space and `MP`.
   */
  predicate MpMatchHere(u: string)
  {
    u != [] && IsDigit(u[0]) && StartsWith(StripLeft(u[RunLength(u, IsDigit)..]), "MP")
  }

  /** The value of the digit run at the start of `u`, the group a match there captures. */
  function LeadingNumber(u: string): nat
  {
    DigitsValue(u[..RunLength(u, IsDigit)])
  }

  ghost predicate MpMatchAt(s: string, i: int)
  {
    0 <= i < |s| && MpMatchHere(s[i..])
  }

  /** First number of a `re.search(r'(\d+)\s*MP', s)` match. */
  function FirstMpNumber(s: string): (r: Option<nat>)
    decreases |s|
  {
    if s == [] then None
    else if IsDigit(s[0]) then
      var n := RunLength(s, IsDigit);
      if StartsWith(StripLeft(s[n..]), "MP") then Some(DigitsValue(s[..n]))
      else FirstMpNumber(s[n..])
    else FirstMpNumber(s[1..])
  }

  /** First number of a `re.search(r'(\d+)', s)` match. */
  function FirstNumber(s: string): (r: Option<nat>)
    decreases |s|
  {
    if s == [] then None
    else if IsDigit(s[0]) then Some(DigitsValue(s[..RunLength(s, IsDigit)]))
    else FirstNumber(s[1..])
  }

  /**
   * `FirstMpNumber` is `re.search`: it finds the leftmost position where the
   * pattern matches and returns that group, and finds nothing exactly when
   * the pattern matches nowhere.
   */
  lemma {:induction false} FirstMpNumberIsSearch(s: string)
    ensures FirstMpNumber(s).None? <==> forall i :: !MpMatchAt(s, i)
    ensures FirstMpNumber(s).Some? ==>
      exists i :: MpMatchAt(s, i) && (forall k :: 0 <= k < i ==> !MpMatchAt(s, k))
        && FirstMpNumber(s).value == LeadingNumber(s[i..])
    decreases |s|
  {
    if s != [] {
      var m := if IsDigit(s[0]) then RunLength(s, IsDigit) else 1;
      assert s[0..] == s;
      if IsDigit(s[0]) && StartsWith(StripLeft(s[m..]), "MP") {
        assert MpMatchAt(s, 0);
        assert FirstMpNumber(s) == Some(LeadingNumber(s[0..]));
      } else {
        assert !MpMatchAt(s, 0);
        var t := s[m..];
        assert FirstMpNumber(s) == FirstMpNumber(t);
        FirstMpNumberIsSearch(t);
        forall k | 0 <= k < m ensures !MpMatchAt(s, k) {
          if IsDigit(s[0]) { LeadingRunMatches(s, k); }
        }
        SkipNonMatching(s, m);
      }
    }
  }

  /**
   * `FirstNumber` is `re.search(r'(\d+)', s)`: it reads the digit run at the
   * first digit, and finds nothing exactly when `s` has no digit.
   */
  lemma {:induction false} FirstNumberIsSearch(s: string)
    ensures FirstNumber(s).None? <==> forall i :: 0 <= i < |s| ==> !IsDigit(s[i])
    ensures FirstNumber(s).Some? ==>
      exists i :: 0 <= i < |s| && IsDigit(s[i]) && (forall k :: 0 <= k < i ==> !IsDigit(s[k]))
        && FirstNumber(s).value == LeadingNumber(s[i..])
    decreases |s|
  {
    if s != [] {
      if IsDigit(s[0]) {
        assert s[0..] == s;
      } else {
        var t := s[1..];
        FirstNumberIsSearch(t);
        if FirstNumber(t).Some? {
          var i :| 0 <= i < |t| && IsDigit(t[i]) && (forall k :: 0 <= k < i ==> !IsDigit(t[k]))
            && FirstNumber(t).value == LeadingNumber(t[i..]);
          assert t[i..] == s[i + 1..];
          forall k | 0 <= k < i + 1 ensures !IsDigit(s[k]) {
            if k > 0 { assert s[k] == t[k - 1]; }
          }
          assert IsDigit(s[i + 1]);
        } else {
          forall i | 0 <= i < |s| ensures !IsDigit(s[i]) {
            if i > 0 { assert s[i] == t[i - 1]; }
          }
        }
      }
    }
  }

  /** When nothing matches before `m`, searching `s` is searching `s[m..]`. */
  lemma SkipNonMatching(s: string, m: nat)
    requires 0 < m <= |s|
    requires forall k :: 0 <= k < m ==> !MpMatchAt(s, k)
    requires FirstMpNumber(s[m..]).None? <==> forall i :: !MpMatchAt(s[m..], i)
    requires FirstMpNumber(s[m..]).Some? ==>
      exists i :: MpMatchAt(s[m..], i) && (forall k :: 0 <= k < i ==> !MpMatchAt(s[m..], k))
        && FirstMpNumber(s[m..]).value == LeadingNumber(s[m..][i..])
    ensures FirstMpNumber(s[m..]).None? <==> forall i :: !MpMatchAt(s, i)
    ensures FirstMpNumber(s[m..]).Some? ==>
      exists i :: MpMatchAt(s, i) && (forall k :: 0 <= k < i ==> !MpMatchAt(s, k))
        && FirstMpNumber(s[m..]).value == LeadingNumber(s[i..])
  {
    var t := s[m..];
    if FirstMpNumber(t).Some? {
      var i :| MpMatchAt(t, i) && (forall k :: 0 <= k < i ==> !MpMatchAt(t, k))
        && FirstMpNumber(t).value == LeadingNumber(t[i..]);
      ShiftedMatch(s, m, i + m);
      forall k | m <= k < i + m ensures !MpMatchAt(s, k) { ShiftedMatch(s, m, k); }
      assert MpMatchAt(s, i + m);
    } else {
      forall i | m <= i ensures !MpMatchAt(s, i) { ShiftedMatch(s, m, i); }
      forall i ensures !MpMatchAt(s, i) {
        if m <= i { ShiftedMatch(s, m, i); }
      }
    }
  }

  /** Inside the leading digit run, every start position matches as position 0 does. */
  lemma LeadingRunMatches(s: string, i: nat)
    requires s != [] && IsDigit(s[0]) && i < RunLength(s, IsDigit)
    ensures MpMatchAt(s, i) <==> MpMatchAt(s, 0)
  {
    RunLengthSuffix(s, i);
    assert s[0..] == s;
    assert s[i..][RunLength(s[i..], IsDigit)..] == s[RunLength(s, IsDigit)..];
    assert MpMatchHere(s[i..]) <==> MpMatchHere(s);
  }

  /** Matches past position `m` are the matches of `s[m..]`, shifted. */
  lemma ShiftedMatch(s: string, m: nat, i: nat)
    requires m <= i && m <= |s|
    ensures MpMatchAt(s, i) <==> MpMatchAt(s[m..], i - m)
    ensures i < |s| ==> s[i..] == s[m..][i - m..]
  {
    if i < |s| { assert s[i..] == s[m..][i - m..]; }
  }

  /** A digit run read from inside the leading run ends where the leading run ends. */
  lemma {:induction false} RunLengthSuffix(s: string, i: nat)
    requires i < RunLength(s, IsDigit)
    ensures RunLength(s[i..], IsDigit) == RunLength(s, IsDigit) - i
    decreases i
  {
    if i > 0 {
      assert s[1..][i - 1..] == s[i..];
      RunLengthSuffix(s[1..], i - 1);
    }
  }

  /** The character of a decimal digit. */
  function DigitChar(d: nat): (c: char)
    requires d < 10
    ensures IsDigit(c) && DigitValue(c) == d
  {
    ('0' as int + d) as char
  }

  /** `str(n)` for a natural number. */
  function NatString(n: nat): (s: string)
    ensures |s| > 0 && forall i :: 0 <= i < |s| ==> IsDigit(s[i])
  {
    if n < 10 then [DigitChar(n)] else NatString(n / 10) + [DigitChar(n % 10)]
  }

  /** `str(n)` for an integer. */
  function IntString(n: int): string
  {
    if n < 0 then "-" + NatString(-n) else NatString(n)
  }

  /** Reading back the digits of `str(n)` gives `n`. */
  lemma {:induction false} NatStringValue(n: nat)
    ensures DigitsValue(NatString(n)) == n
  {
    var s := NatString(n);
    if n >= 10 {
      NatStringValue(n / 10);
      assert s[..|s| - 1] == NatString(n / 10);
    }
  }
}
