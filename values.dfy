/**
 * The free-form project value parser, in the two copies the system holds:
 * the one the summary statistics use and the one the dashboard sorts by.
 * Both take the first run of digits and commas (the first match of the
 * regular expression /[\d,]+/), drop the commas, read the digits as a
 * number and scale it by a million if the string mentions 'm' in any case,
 * else by a thousand if it mentions 'k'.
 */
module ValueParsing {
  import opened Wrappers
  import opened Text

  /** `\d` without the Unicode flag: the ASCII digits. */
  predicate IsDigit(c: char)
  {
    '0' <= c <= '9'
  }

  /** A character of the class `[\d,]`. */
  predicate IsRunChar(c: char)
  {
    IsDigit(c) || c == ','
  }

  /** The first position at or after `i` that holds a run character. */
  function RunStart(s: string, i: nat): Option<nat>
    requires i <= |s|
    decreases |s| - i
  {
    if i == |s| then None
    else if IsRunChar(s[i]) then Some(i)
    else RunStart(s, i + 1)
  }

  /** The search finds the first run character at or after `i`, or reports that there is none. */
  lemma {:induction false} RunStartSpec(s: string, i: nat)
    requires i <= |s|
    decreases |s| - i
    ensures var r := RunStart(s, i);
      && (r.Some? ==> i <= r.value < |s| && IsRunChar(s[r.value]))
      && (r.Some? ==> forall k :: i <= k < r.value ==> !IsRunChar(s[k]))
      && (r.None? ==> forall k :: i <= k < |s| ==> !IsRunChar(s[k]))
  {
    if i < |s| && !IsRunChar(s[i]) {
      RunStartSpec(s, i + 1);
    }
  }

  /** The end of the run of run characters that continues from position `j`. */
  function RunEnd(s: string, j: nat): nat
    requires j <= |s|
    decreases |s| - j
  {
    if j < |s| && IsRunChar(s[j]) then RunEnd(s, j + 1) else j
  }

  /** The run continuing from `j` stops at the first character outside the class, or at the end. */
  lemma {:induction false} RunEndSpec(s: string, j: nat)
    requires j <= |s|
    decreases |s| - j
    ensures j <= RunEnd(s, j) <= |s|
    ensures forall k :: j <= k < RunEnd(s, j) ==> IsRunChar(s[k])
    ensures RunEnd(s, j) == |s| || !IsRunChar(s[RunEnd(s, j)])
  {
    if j < |s| && IsRunChar(s[j]) {
      RunEndSpec(s, j + 1);
    }
  }

  /** `s[i..j]` is the leftmost-longest match of /[\d,]+/ in `s`. */
  predicate IsFirstRun(s: string, i: nat, j: nat)
  {
    && i < j <= |s|
    && (forall k :: 0 <= k < i ==> !IsRunChar(s[k]))
    && (forall k :: i <= k < j ==> IsRunChar(s[k]))
    && (j == |s| || !IsRunChar(s[j]))
  }

  /** Where the first match of /[\d,]+/ lies in `s`, if there is one. */
  function FirstRunSpan(s: string): Option<(nat, nat)>
  {
    match RunStart(s, 0)
    case None => None
    case Some(i) =>
      RunStartSpec(s, 0);
      Some((i, RunEnd(s, i + 1)))
  }

  /** The span is the leftmost-longest match, and there is none exactly when no character is in the class. */
  lemma FirstRunSpanSpec(s: string)
    ensures FirstRunSpan(s).None? <==> forall k :: 0 <= k < |s| ==> !IsRunChar(s[k])
    ensures FirstRunSpan(s).Some? ==> IsFirstRun(s, FirstRunSpan(s).value.0, FirstRunSpan(s).value.1)
  {
    RunStartSpec(s, 0);
    if RunStart(s, 0).Some? {
      RunEndSpec(s, RunStart(s, 0).value + 1);
    }
  }

  /** `s.match(/[\d,]+/)`: the first match, or `None` for JavaScript's `null`. */
  function FirstRun(s: string): Option<string>
  {
    FirstRunSpanSpec(s);
    match FirstRunSpan(s)
    case None => None
    case Some((i, j)) => Some(s[i..j])
  }

  /** There is a match exactly when some character is in the class, and it consists of such characters. */
  lemma FirstRunSpec(s: string)
    ensures FirstRun(s).None? <==> forall k :: 0 <= k < |s| ==> !IsRunChar(s[k])
    ensures FirstRun(s).Some? ==> forall c :: c in FirstRun(s).value ==> IsRunChar(c)
  {
    FirstRunSpanSpec(s);
    if FirstRunSpan(s).Some? {
      var (i, j) := FirstRunSpan(s).value;
      forall c | c in s[i..j] ensures IsRunChar(c) {
        var k :| 0 <= k < j - i && s[i..j][k] == c;
        assert s[i + k] == c;
      }
    }
  }

  /** The first match is determined by its characterisation. */
  lemma FirstRunIs(s: string, i: nat, j: nat)
    requires IsFirstRun(s, i, j)
    ensures FirstRunSpan(s) == Some((i, j)) && FirstRun(s) == Some(s[i..j])
  {
    assert IsRunChar(s[i]);
    RunStartSpec(s, 0);
    var st := RunStart(s, 0).value;
    RunEndSpec(s, i + 1);
    var e := RunEnd(s, i + 1);
  }

  /** `t.replace(/,/g, '')`. */
  function StripCommas(t: string): string
  {
    if t == [] then []
    else if t[0] == ',' then StripCommas(t[1..])
    else [t[0]] + StripCommas(t[1..])
  }

  /** Dropping the commas keeps every other character, in order, and nothing else. */
  lemma {:induction false} StripCommasSpec(t: string)
    ensures ',' !in StripCommas(t)
    ensures forall c :: c in StripCommas(t) ==> c in t
    ensures StripCommas(t) == [] <==> forall k :: 0 <= k < |t| ==> t[k] == ','
    ensures |StripCommas(t)| == |t| - multiset(t)[',']
  {
    if t != [] {
      StripCommasSpec(t[1..]);
      assert t == [t[0]] + t[1..];
      assert multiset(t) == multiset([t[0]]) + multiset(t[1..]);
      if t[0] == ',' {
        assert forall k :: 1 <= k < |t| ==> t[k] == t[1..][k - 1];
      }
    }
  }

  /** The decimal value of a string of digits. */
  function DigitsValue(d: string): nat
    requires forall c :: c in d ==> IsDigit(c)
  {
    if d == [] then 0
    else
      assert IsDigit(d[|d| - 1]) by {
        assert d[|d| - 1] in d;
      }
      10 * DigitsValue(d[..|d| - 1]) + (d[|d| - 1] as int - '0' as int)
  }

  /** A JavaScript number as it arises here: a natural number, or NaN. */
  datatype Number = Finite(n: nat) | NaN {
    /** Multiplication by a natural constant; NaN stays NaN. */
    function Times(k: nat): Number
    {
      match this
      case Finite(n) => Finite(n * k)
      case NaN => NaN
    }
  }

  /** `parseFloat` of a comma-stripped run: the empty string is NaN, a digit string its value. */
  function ParseDigits(t: string): (r: Number)
    requires forall c :: c in t ==> IsDigit(c)
    ensures r.NaN? <==> t == []
  {
    if t == [] then NaN else Finite(DigitsValue(t))
  }

  /** The digits of a run once its commas are dropped. */
  lemma StrippedRunIsDigits(run: string)
    requires forall c :: c in run ==> IsRunChar(c)
    ensures forall c :: c in StripCommas(run) ==> IsDigit(c)
    ensures StripCommas(run) == [] <==> forall k :: 0 <= k < |run| ==> run[k] == ','
  {
    StripCommasSpec(run);
  }

  /** `parseFloat(run.replace(/,/g, ''))` for a run of digits and commas. */
  function RunNumber(run: string): Number
    requires forall c :: c in run ==> IsRunChar(c)
  {
    StrippedRunIsDigits(run);
    ParseDigits(StripCommas(run))
  }

  /** A run reads as NaN exactly when it holds commas only. */
  lemma RunNumberNaN(run: string)
    requires forall c :: c in run ==> IsRunChar(c)
    ensures RunNumber(run).NaN? <==> forall k :: 0 <= k < |run| ==> run[k] == ','
  {
    StrippedRunIsDigits(run);
  }

  /** The scale the unit letter gives: 'm' is checked before 'k', both after lowercasing. */
  function Multiplier(s: string): nat
  {
    if Contains(Lower(s), "m") then 1000000
    else if Contains(Lower(s), "k") then 1000
    else 1
  }

  /**
   * The multiplier in terms of the original string: a million when it holds
   * 'm' or 'M', otherwise a thousand when it holds 'k', 'K' or KELVIN SIGN, otherwise one.
   */
  lemma MultiplierCases(s: string)
    ensures Multiplier(s) == 1000000 <==> exists i :: 0 <= i < |s| && (s[i] == 'm' || s[i] == 'M')
    ensures Multiplier(s) == 1000 <==>
      && (forall i :: 0 <= i < |s| ==> s[i] != 'm' && s[i] != 'M')
      && (exists i :: 0 <= i < |s| && (s[i] == 'k' || s[i] == 'K' || s[i] == '\U{212A}'))
  {
    ContainsChar(Lower(s), 'm');
    ContainsChar(Lower(s), 'k');
    LowerContains(s, 'm');
    LowerContains(s, 'k');
    forall i | 0 <= i < |s| {
      LowerCharCases(s[i]);
    }
  }

  /** A string with a 'k' and without 'm' or 'M' is scaled by a thousand. */
  lemma KiloMultiplier(s: string, i: nat)
    requires i < |s| && s[i] == 'k'
    requires forall k :: 0 <= k < |s| ==> s[k] != 'm' && s[k] != 'M'
    ensures Multiplier(s) == 1000
  {
    MultiplierCases(s);
  }

  /** A string of digits and commas alone carries no unit: its multiplier is one. */
  lemma PlainRunMultiplier(s: string)
    requires forall k :: 0 <= k < |s| ==> IsRunChar(s[k])
    ensures Multiplier(s) == 1
  {
    MultiplierCases(s);
  }

  /**
   * The first run, commas dropped, read as a number and scaled by the unit
   * letter; 0 when there is no run. Both copies compute this, and differ in
   * how they treat an empty string and a NaN.
   */
  function RunValue(s: string): Number
  {
    FirstRunSpec(s);
    match FirstRun(s)
    case None => Finite(0)
    case Some(run) => RunNumber(run).Times(Multiplier(s))
  }

  /**
   * The value one record contributes to the summary total: a missing or
   * empty value reads as "0", no run or a run of commas only contributes 0.
   */
  function StatsValue(value: string): nat
  {
    match RunValue(if value == "" then "0" else value)
    case NaN => 0
    case Finite(n) => n
  }

  /**
   * The dashboard's value: 0 for an empty string and for a string without a
   * run; otherwise the scaled run, which is NaN for a run of commas only.
   */
  function ExtractValue(value: string): Number
  {
    if value == "" then Finite(0) else RunValue(value)
  }

  /** The first run of `value` exists and contains no digit. */
  predicate CommaOnlyRun(value: string)
  {
    FirstRun(value).Some? && forall k :: 0 <= k < |FirstRun(value).value| ==> FirstRun(value).value[k] == ','
  }

  /** The two copies agree except on a comma-only run, where the dashboard's yields NaN and the statistics' 0. */
  lemma ParsersAgree(value: string)
    ensures ExtractValue(value).NaN? <==> CommaOnlyRun(value)
    ensures !CommaOnlyRun(value) ==> ExtractValue(value) == Finite(StatsValue(value))
    ensures CommaOnlyRun(value) ==> StatsValue(value) == 0
  {
    FirstRunSpec(value);
    if FirstRun(value).Some? {
      RunNumberNaN(FirstRun(value).value);
    }
    if value == "" {
      FirstRunIs("0", 0, 1);
      assert DigitsValue("0") == 0;
    }
  }

  /** When the first run of a value holds a digit, both copies yield its comma-free digits, scaled. */
  lemma ValueOfRun(value: string, i: nat, j: nat)
    requires IsFirstRun(value, i, j)
    requires exists k :: i <= k < j && IsDigit(value[k])
    ensures forall c :: c in StripCommas(value[i..j]) ==> IsDigit(c)
    ensures StripCommas(value[i..j]) != []
    ensures StatsValue(value) == DigitsValue(StripCommas(value[i..j])) * Multiplier(value)
    ensures ExtractValue(value) == Finite(StatsValue(value))
  {
    FirstRunIs(value, i, j);
    var run := value[i..j];
    var k :| i <= k < j && IsDigit(value[k]);
    assert run[k - i] == value[k];
    FirstRunSpec(value);
    StrippedRunIsDigits(run);
  }

  /** Values without any digit or comma count as 0 in both copies. */
  lemma NoRunIsZero(value: string)
    requires forall k :: 0 <= k < |value| ==> !IsRunChar(value[k])
    ensures StatsValue(value) == 0 && ExtractValue(value) == Finite(0)
  {
    FirstRunSpec(value);
    if value == "" {
      FirstRunIs("0", 0, 1);
      assert DigitsValue("0") == 0;
    }
  }

  /** "$2.5M" reads as 2 million: the run stops at the point and the unit is case-insensitive. */
  lemma MillionsExample()
    ensures StatsValue("$2.5M") == 2000000 && ExtractValue("$2.5M") == Finite(2000000)
  {
    var v := "$2.5M";
    assert v[1..2] == "2";
    MultiplierCases(v);
    assert v[4] == 'M';
    assert DigitsValue("2") == 2;
    ValueOfRun(v, 1, 2);
  }

  /** "150k" reads as 150 thousand. */
  lemma ThousandsExample()
    ensures StatsValue("150k") == 150000 && ExtractValue("150k") == Finite(150000)
  {
    var v := "150k";
    assert v[0..3] == "150";
    KiloMultiplier(v, 3);
    OneFiftyDigits();
    ValueOfRun(v, 0, 3);
  }

  /** "150" has no comma to drop and is worth 150. */
  lemma OneFiftyDigits()
    ensures StripCommas("150") == "150" && DigitsValue("150") == 150
  {
    assert StripCommas("0") == "0" by { assert "0"[1..] == ""; }
    assert StripCommas("50") == "50" by { assert "50"[1..] == "0"; }
    assert StripCommas("150") == "150" by { assert "150"[1..] == "50"; }
    assert DigitsValue("1") == 1 by { assert "1"[..0] == ""; }
    assert DigitsValue("15") == 15 by { assert "15"[..1] == "1"; }
    assert DigitsValue("150") == 150 by { assert "150"[..2] == "15"; }
  }

  /** A value made only of digits and commas, at least one a digit, reads as its digits unscaled. */
  lemma PlainRunValue(v: string)
    requires forall k :: 0 <= k < |v| ==> IsRunChar(v[k])
    requires exists k :: 0 <= k < |v| && IsDigit(v[k])
    ensures forall c :: c in StripCommas(v) ==> IsDigit(c)
    ensures StatsValue(v) == DigitsValue(StripCommas(v))
  {
    PlainRunMultiplier(v);
    assert v[0..|v|] == v;
    ValueOfRun(v, 0, |v|);
  }

  /** "1,500,000" reads as one and a half million: the commas are dropped. */
  lemma CommasExample()
    ensures StatsValue("1,500,000") == 1500000
  {
    var v := "1,500,000";
    assert IsDigit(v[0]);
    CommasStripped();
    MillionAndAHalfDigits();
    PlainRunValue(v);
  }

  /** The comma-free digits of "1,500,000". */
  lemma CommasStripped()
    ensures StripCommas("1,500,000") == "1500000"
  {
    assert StripCommas("0") == "0" by { assert "0"[1..] == ""; }
    assert StripCommas("00") == "00" by { assert "00"[1..] == "0"; }
    assert StripCommas("000") == "000" by { assert "000"[1..] == "00"; }
    assert StripCommas(",000") == "000" by { assert ",000"[1..] == "000"; }
    assert StripCommas("0,000") == "0000" by { assert "0,000"[1..] == ",000"; }
    assert StripCommas("00,000") == "00000" by { assert "00,000"[1..] == "0,000"; }
    assert StripCommas("500,000") == "500000" by { assert "500,000"[1..] == "00,000"; }
    assert StripCommas(",500,000") == "500000" by { assert ",500,000"[1..] == "500,000"; }
    assert StripCommas("1,500,000") == "1500000" by { assert "1,500,000"[1..] == ",500,000"; }
  }

  /** The value of the digit string "1500000". */
  lemma MillionAndAHalfDigits()
    ensures DigitsValue("1500000") == 1500000
  {
    assert DigitsValue("1") == 1 by { assert "1"[..0] == ""; }
    assert DigitsValue("15") == 15 by { assert "15"[..1] == "1"; }
    assert DigitsValue("150") == 150 by { assert "150"[..2] == "15"; }
    assert DigitsValue("1500") == 1500 by { assert "1500"[..3] == "150"; }
    assert DigitsValue("15000") == 15000 by { assert "15000"[..4] == "1500"; }
    assert DigitsValue("150000") == 150000 by { assert "150000"[..5] == "15000"; }
    assert DigitsValue("1500000") == 1500000 by { assert "1500000"[..6] == "150000"; }
  }

  /** "abc" holds no digit and reads as 0. */
  lemma NoDigitsExample()
    ensures StatsValue("abc") == 0 && ExtractValue("abc") == Finite(0)
  {
    NoRunIsZero("abc");
  }

  /** A run of commas alone: the statistics skip it, the dashboard gets NaN. */
  lemma CommaOnlyExample()
    ensures StatsValue("$,k") == 0 && ExtractValue("$,k") == NaN
  {
    var v := "$,k";
    FirstRunIs(v, 1, 2);
    assert v[1..2] == ",";
    FirstRunSpec(v);
    RunNumberNaN(",");
  }
}
