/** The dashboard's number formatter `fmt_ru` and the fixed-point text used
    for percentages, together with a reader that takes a formatted string
    back to the amount it shows. */
module NumberFormat {
  import opened Basics

  /** A float cell as pandas holds it: a number, or NaN when missing. */
  datatype Measure = NaN | Num(v: real)

  const Billions: string := " млрд USD"
  const Millions: string := " млн USD"

  function Abs(x: real): (r: real)
    ensures r >= 0.0 && (r == x || r == -x)
  {
    if x < 0.0 then -x else x
  }

  /** `x` multiplied by `k`, NaN staying NaN. */
  function Scale(m: Measure, k: real): (r: Measure)
    ensures r.NaN? <==> m.NaN?
    ensures r.Num? ==> r.v == m.v * k
  {
    match m
    case NaN => NaN
    case Num(v) => Num(v * k)
  }

  // ---------------------------------------------------------------------
  // Digits

  predicate IsDigit(c: char) {
    '0' <= c <= '9'
  }

  function DigitChar(d: nat): (c: char)
    requires d < 10
    ensures IsDigit(c)
  {
    (48 + d) as char
  }

  function DigitValue(c: char): (d: nat)
    requires IsDigit(c)
    ensures d < 10
  {
    c as int - 48
  }

  /** The decimal numeral of `n`, without grouping. */
  function Digits(n: nat): (s: string)
    ensures |s| >= 1 && IsDigit(s[0])
    ensures Numeral(s)
  {
    if n < 10 then [DigitChar(n)] else Digits(n / 10) + [DigitChar(n % 10)]
  }

  /** The three digits of a group, with leading zeros. */
  function Group(n: nat): (s: string)
    requires n < 1000
    ensures |s| == 3 && Numeral(s)
  {
    [DigitChar(n / 100), DigitChar(n / 10 % 10), DigitChar(n % 10)]
  }

  /** The numeral of `n` with its digits grouped by three, as Python's `,`
      format gives it once every comma has become a space. */
  function Grouped(n: nat): (s: string)
    ensures |s| >= 1 && IsDigit(s[0])
    ensures Numeral(s)
  {
    if n < 1000 then Digits(n) else Grouped(n / 1000) + " " + Group(n % 1000)
  }

  /** A string of digits and group separators. */
  predicate Numeral(s: string) {
    forall i :: 0 <= i < |s| ==> IsDigit(s[i]) || s[i] == ' '
  }

  /** The number a numeral denotes, group separators skipped. */
  function ValueOf(s: string): nat
    requires Numeral(s)
  {
    if s == [] then 0
    else if s[|s| - 1] == ' ' then ValueOf(s[..|s| - 1])
    else ValueOf(s[..|s| - 1]) * 10 + DigitValue(s[|s| - 1])
  }

  // ---------------------------------------------------------------------
  // Rounding to one decimal

  /** `x * 10` rounded to the nearest integer, ties to even, as Python's
      `.1f` format rounds a value it can represent exactly. */
  function Tenths(x: real): (t: nat)
    requires x >= 0.0
    ensures (t as real) - 0.5 <= x * 10.0 <= (t as real) + 0.5
  {
    var scaled := x * 10.0;
    var n := scaled.Floor;
    var frac := scaled - n as real;
    if frac > 0.5 || (frac == 0.5 && n % 2 == 1) then n + 1 else n
  }

  /** A count of tenths written with one decimal: `12.3`, or `1 234.5` when
      `grouping` is set. */
  function OneDecimal(t: nat, grouping: bool): (s: string)
    ensures |s| >= 3 && IsDigit(s[0]) && IsDigit(s[|s| - 1]) && s[|s| - 2] == '.'
    ensures Numeral(s[..|s| - 2])
  {
    var whole := if grouping then Grouped(t / 10) else Digits(t / 10);
    var s := whole + "." + [DigitChar(t % 10)];
    assert s[..|s| - 2] == whole;
    s
  }

  // ---------------------------------------------------------------------
  // fmt_ru and the percentage text

  /** `fmt_ru(v)`: an amount given in billions of USD as Russian text. NaN
      gives the empty string; a negative amount carries a leading minus
      before the text of its absolute value. */
  function FmtRu(m: Measure): (s: string)
    ensures m.NaN? <==> s == []
    ensures m.Num? ==> (s[0] == '-' <==> m.v < 0.0)
  {
    match m
    case NaN => []
    case Num(v) =>
      var body := Amount(Abs(v));
      var s := (if v < 0.0 then "-" else "") + body;
      assert s[0] == if v < 0.0 then '-' else body[0];
      s
  }

  /** A non-negative amount in billions: at least one billion is written in
      billions, anything less in millions, with one decimal and the digits
      grouped by three. */
  function Amount(a: real): (s: string)
    requires a >= 0.0
    ensures |s| >= 1 && IsDigit(s[0])
  {
    if a >= 1.0 then OneDecimal(Tenths(a), true) + Billions
    else OneDecimal(Tenths(a * 1000.0), true) + Millions
  }

  /** The unit `FmtRu` writes is billions exactly when the amount is at
      least one billion in absolute value, and millions otherwise. */
  lemma FmtRuUnit(v: real)
    ensures EndsWith(FmtRu(Num(v)), Billions) <==> Abs(v) >= 1.0
    ensures EndsWith(FmtRu(Num(v)), Millions) <==> Abs(v) < 1.0
  {
    var body := Amount(Abs(v));
    AmountUnit(Abs(v));
    EndsWithSigned(body, v < 0.0, Billions);
    EndsWithSigned(body, v < 0.0, Millions);
  }

  /** An amount's text ends with the unit of its tier and not the other. */
  lemma AmountUnit(a: real)
    requires a >= 0.0
    ensures |Amount(a)| >= |Billions|
    ensures EndsWith(Amount(a), Billions) <==> a >= 1.0
    ensures EndsWith(Amount(a), Millions) <==> a < 1.0
  {
    if a >= 1.0 {
      SuffixExclusive(OneDecimal(Tenths(a), true), Billions);
    } else {
      SuffixExclusive(OneDecimal(Tenths(a * 1000.0), true), Millions);
    }
  }

  /** A leading minus does not change how a text ends. */
  lemma EndsWithSigned(body: string, negative: bool, suffix: string)
    requires |suffix| <= |body|
    ensures EndsWith((if negative then "-" else "") + body, suffix) <==> EndsWith(body, suffix)
  {
    var s := (if negative then "-" else "") + body;
    assert s[|s| - |suffix|..] == body[|body| - |suffix|..];
  }

  /** `f"{v:.1f}%"`: a percentage with one decimal and no grouping. */
  function PercentText(v: real): (s: string)
    ensures |s| >= 4 && s[|s| - 1] == '%'
    ensures s[0] == '-' <==> v < 0.0
  {
    var sign := if v < 0.0 then "-" else "";
    var digits := OneDecimal(Tenths(Abs(v)), false);
    var s := sign + digits + "%";
    assert s[0] == if v < 0.0 then '-' else digits[0];
    s
  }

  predicate EndsWith(s: string, suffix: string) {
    |suffix| <= |s| && s[|s| - |suffix|..] == suffix
  }

  /** A string whose last character before the unit is a digit ends with
      exactly one of the two units. */
  lemma SuffixExclusive(body: string, suffix: string)
    requires |body| >= 1 && IsDigit(body[|body| - 1])
    requires suffix == Billions || suffix == Millions
    ensures EndsWith(body + suffix, Billions) <==> suffix == Billions
    ensures EndsWith(body + suffix, Millions) <==> suffix == Millions
  {
    var s := body + suffix;
    if suffix == Millions {
      assert s[|s| - |Billions|] == body[|body| - 1];
      assert s[|s| - |Millions|..] == suffix;
    } else {
      assert s[|s| - |Billions|..] == suffix;
      assert s[|s| - |Millions|..][0] == 'м';
    }
  }

  // ---------------------------------------------------------------------
  // Reading a formatted amount back

  /** The number a one-decimal numeral such as `1 234.5` denotes. */
  function Decimal(s: string): Option<real> {
    if |s| >= 3 && s[|s| - 2] == '.' && IsDigit(s[|s| - 1]) && Numeral(s[..|s| - 2]) then
      Some((ValueOf(s[..|s| - 2]) * 10 + DigitValue(s[|s| - 1])) as real / 10.0)
    else None
  }

  /** The amount, in billions of USD, that a reader takes from a string
      `FmtRu` writes; None for any other string, the empty one included. */
  function Shown(s: string): Option<real> {
    if s == [] then None
    else if s[0] == '-' then
      match Unsigned(s[1..])
      case Some(x) => Some(-x)
      case None => None
    else Unsigned(s)
  }

  /** The amount a numeral followed by a unit denotes, in billions. */
  function Unsigned(body: string): Option<real> {
    if EndsWith(body, Billions) then Decimal(body[..|body| - |Billions|])
    else if EndsWith(body, Millions) then
      match Decimal(body[..|body| - |Millions|])
      case Some(x) => Some(x / 1000.0)
      case None => None
    else None
  }

  /** How far the shown amount may lie from the formatted one: half of the
      last displayed digit, 0.05 billion or 0.05 million. */
  function Tolerance(v: real): (e: real)
    ensures e > 0.0
  {
    if Abs(v) >= 1.0 then 0.05 else 0.00005
  }

  predicate Close(w: real, v: real) {
    Abs(w - v) <= Tolerance(v)
  }

  lemma {:induction false} DigitsValue(n: nat)
    ensures ValueOf(Digits(n)) == n
  {
    if n >= 10 {
      var s := Digits(n);
      assert s[..|s| - 1] == Digits(n / 10);
      DigitsValue(n / 10);
    }
  }

  lemma ValueOfDigit(p: string, c: char)
    requires Numeral(p) && IsDigit(c)
    ensures Numeral(p + [c]) && ValueOf(p + [c]) == ValueOf(p) * 10 + DigitValue(c)
  {
    assert (p + [c])[..|p|] == p;
  }

  lemma ValueOfSpace(p: string)
    requires Numeral(p)
    ensures Numeral(p + " ") && ValueOf(p + " ") == ValueOf(p)
  {
    assert (p + " ")[..|p|] == p;
  }

  lemma {:induction false} GroupedValue(n: nat)
    ensures ValueOf(Grouped(n)) == n
  {
    if n < 1000 {
      DigitsValue(n);
    } else {
      GroupedValue(n / 1000);
      ValueOfGroup(Grouped(n / 1000), n % 1000);
    }
  }

  /** A separator and a group of three digits append the group's value. */
  lemma ValueOfGroup(p: string, r: nat)
    requires Numeral(p) && r < 1000
    ensures Numeral(p + " " + Group(r)) && ValueOf(p + " " + Group(r)) == ValueOf(p) * 1000 + r
  {
    var a, b, c := DigitChar(r / 100), DigitChar(r / 10 % 10), DigitChar(r % 10);
    assert p + " " + Group(r) == p + " " + [a] + [b] + [c];
    ValueOfSpace(p);
    ValueOfDigit(p + " ", a);
    ValueOfDigit(p + " " + [a], b);
    ValueOfDigit(p + " " + [a] + [b], c);
  }

  /** Reading back a one-decimal numeral gives its tenths exactly. */
  lemma OneDecimalValue(t: nat, grouping: bool)
    ensures Decimal(OneDecimal(t, grouping)) == Some(t as real / 10.0)
  {
    var whole := if grouping then Grouped(t / 10) else Digits(t / 10);
    var s := OneDecimal(t, grouping);
    assert s[..|s| - 2] == whole;
    if grouping { GroupedValue(t / 10); } else { DigitsValue(t / 10); }
    assert DigitValue(s[|s| - 1]) == t % 10;
  }

  /** Reading back a one-decimal numeral and a unit. */
  lemma UnsignedParts(d: string, billions: bool)
    requires |d| >= 1 && IsDigit(d[0]) && IsDigit(d[|d| - 1]) && Decimal(d).Some?
    ensures var body := d + (if billions then Billions else Millions);
      Unsigned(body) == Some(if billions then Decimal(d).value else Decimal(d).value / 1000.0)
  {
    var suffix := if billions then Billions else Millions;
    var body := d + suffix;
    SuffixExclusive(d, suffix);
    assert body[..|body| - |suffix|] == d;
  }

  /** Reading back a sign and an unsigned amount. */
  lemma ShownSigned(body: string, negative: bool)
    requires body != [] && body[0] != '-' && Unsigned(body).Some?
    ensures Shown((if negative then "-" else "") + body) == Some(if negative then -Unsigned(body).value else Unsigned(body).value)
  {
    var s := (if negative then "-" else "") + body;
    if negative {
      assert s[0] == '-' && s[1..] == body;
    } else {
      assert s == body;
    }
  }

  /** Reading back `t` tenths written with a unit. */
  lemma UnsignedTenths(t: nat, billions: bool)
    ensures Unsigned(OneDecimal(t, true) + (if billions then Billions else Millions))
         == Some(if billions then t as real / 10.0 else t as real / 10.0 / 1000.0)
  {
    OneDecimalValue(t, true);
    UnsignedParts(OneDecimal(t, true), billions);
  }

  /** Reading back the text of a non-negative amount gives its tenths in
      the unit of its tier. */
  lemma UnsignedAmount(a: real)
    requires a >= 0.0
    ensures Unsigned(Amount(a)) == Some(if a >= 1.0 then Tenths(a) as real / 10.0 else Tenths(a * 1000.0) as real / 10.0 / 1000.0)
  {
    var t := if a >= 1.0 then Tenths(a) else Tenths(a * 1000.0);
    assert Amount(a) == OneDecimal(t, true) + (if a >= 1.0 then Billions else Millions);
    UnsignedTenths(t, a >= 1.0);
  }

  /** The partner of `FmtRu`: reading its output back gives the formatted
      amount to within half of the last displayed digit, with its sign and
      in the unit of the tier chosen. */
  lemma ShownFmtRu(v: real)
    ensures Shown(FmtRu(Num(v))).Some?
    ensures Close(Shown(FmtRu(Num(v))).value, v)
  {
    var a := Abs(v);
    var t := if a >= 1.0 then Tenths(a) else Tenths(a * 1000.0);
    UnsignedAmount(a);
    ShownSigned(Amount(a), v < 0.0);
    RoundingClose(v, t);
  }

  /** A sign and `t` tenths of the tier's unit lie within the tolerance of
      `v` when `t` rounds `|v|` in that unit. */
  lemma RoundingClose(v: real, t: nat)
    requires Abs(v) >= 1.0 ==> (t as real) - 0.5 <= Abs(v) * 10.0 <= (t as real) + 0.5
    requires Abs(v) < 1.0 ==> (t as real) - 0.5 <= Abs(v) * 1000.0 * 10.0 <= (t as real) + 0.5
    ensures var x := if Abs(v) >= 1.0 then t as real / 10.0 else t as real / 10.0 / 1000.0;
      Close(if v < 0.0 then -x else x, v)
  {
  }

  /** The partner of `PercentText`: the numeral before `%` is the value to
      within half a tenth. */
  lemma ShownPercent(v: real)
    ensures var s := PercentText(v);
      var body := if s[0] == '-' then s[1..|s| - 1] else s[..|s| - 1];
      Decimal(body).Some? && Abs((if s[0] == '-' then -1.0 else 1.0) * Decimal(body).value - v) <= 0.05
  {
    var s := PercentText(v);
    var t := Tenths(Abs(v));
    var digits := OneDecimal(t, false);
    var body := if s[0] == '-' then s[1..|s| - 1] else s[..|s| - 1];
    assert body == digits;
    OneDecimalValue(t, false);
  }

  /** A non-negative amount is written without a sign. */
  lemma FmtRuUnsigned(v: real)
    requires v >= 0.0
    ensures FmtRu(Num(v)) == Amount(v)
  {
    assert "" + Amount(v) == Amount(v);
  }

  /** The tier `Amount` chooses, spelled out. */
  lemma AmountTier(a: real)
    requires a >= 0.0
    ensures a >= 1.0 ==> Amount(a) == OneDecimal(Tenths(a), true) + Billions
    ensures a < 1.0 ==> Amount(a) == OneDecimal(Tenths(a * 1000.0), true) + Millions
  {
  }

  /** One hundred billion, as the trade dynamics chart shows 100 billion of
      exports on hover. */
  lemma FmtRuHundred()
    ensures FmtRu(Num(100.0)) == "100.0 млрд USD"
  {
    FmtRuUnsigned(100.0);
    AmountTier(100.0);
    assert Tenths(100.0) == 1000;
    HundredDecimal();
  }

  lemma HundredDecimal()
    ensures OneDecimal(1000, true) == "100.0"
  {
    assert Digits(10) == "10";
    assert Digits(100) == "100";
  }

  lemma FmtRuTwenty()
    ensures FmtRu(Num(20.0)) == "20.0 млрд USD"
  {
    FmtRuUnsigned(20.0);
    AmountTier(20.0);
    assert Tenths(20.0) == 200;
    TwentyDecimal();
  }

  lemma TwentyDecimal()
    ensures OneDecimal(200, true) == "20.0"
  {
    assert Digits(20) == "20";
  }

  /** A quarter of a billion below zero falls in the millions tier. */
  lemma FmtRuQuarter()
    ensures FmtRu(Num(-0.25)) == "-250.0 млн USD"
  {
    assert FmtRu(Num(-0.25)) == "-" + Amount(0.25);
    AmountTier(0.25);
    assert Tenths(0.25 * 1000.0) == 2500;
    QuarterDecimal();
  }

  lemma QuarterDecimal()
    ensures OneDecimal(2500, true) == "250.0"
  {
    assert Digits(25) == "25";
    assert Digits(250) == "250";
  }

  /** Zero has no sign and falls in the millions tier. */
  lemma ZeroIsMillions()
    ensures FmtRu(Num(0.0)) == "0.0 млн USD"
  {
    FmtRuUnsigned(0.0);
    ZeroAmount();
    ZeroDecimal();
  }

  lemma ZeroAmount()
    ensures Amount(0.0) == OneDecimal(0, true) + Millions
  {
    assert Tenths(0.0 * 1000.0) == 0;
  }

  lemma ZeroDecimal()
    ensures OneDecimal(0, true) == "0.0"
  {
    assert Digits(0) == "0";
  }
}
