/**
 * `CurrencyConverter`: a static table of exchange rates from US dollars
 * and of display symbols, and `convert_price`, which renders a dollar
 * amount in a target currency.  Amounts and rates are exact numbers of
 * hundredths rather than binary floats.
 */
module Currency {
  import opened Wrappers
  import opened Text

  /** A price in US dollars as the program holds it: a Python `int`
      (catalog prices), or a `float` with at most two decimals (sampled
      prices of the form `n + 0.99`), kept as its number of hundredths. */
  datatype Amount = IntAmount(dollars: nat) | FloatAmount(hundredths: nat)

  function Value(a: Amount): real
  {
    match a
    case IntAmount(d) => d as real
    case FloatAmount(h) => h as real / 100.0
  }

  function Hundredths(a: Amount): (h: nat)
    ensures h as real / 100.0 == Value(a)
  {
    match a
    case IntAmount(d) => 100 * d
    case FloatAmount(h) => h
  }

  /** Units of each currency per dollar, times 100 (0.85 is 85). */
  const Rates: map<string, nat> := map[
    "USD" := 100, "EUR" := 85, "GBP" := 73, "JPY" := 11000,
    "CAD" := 125, "AUD" := 135, "INR" := 7500, "CNY" := 650]

  const Symbols: map<string, string> := map[
    "USD" := "$", "EUR" := "\U{20AC}", "GBP" := "\U{00A3}", "JPY" := "\U{00A5}",
    "CAD" := "C$", "AUD" := "A$", "INR" := "\U{20B9}", "CNY" := "\U{00A5}"]

  /** The currencies shown as a whole number, without a decimal point. */
  const WholeUnitCurrencies: seq<string> := ["JPY", "INR"]

  /** The two tables have the same codes, so `self.symbols[target_currency]`
      never fails once the code has a rate, and both whole-unit codes have
      a rate. */
  lemma TablesAgree()
    ensures Symbols.Keys == Rates.Keys
    ensures forall c | c in WholeUnitCurrencies :: c in Rates
  {
  }

  function Rate(code: string): real
    requires code in Rates
  {
    Rates[code] as real / 100.0
  }

  /** `converted` in ten-thousandths of the target currency. */
  function ConvertedTenThousandths(usdPrice: Amount, code: string): nat
    requires code in Rates
  {
    Hundredths(usdPrice) * Rates[code]
  }

  /** `usd_price * rate`, exactly: the product of the price and the rate. */
  lemma ConvertedValue(usdPrice: Amount, code: string)
    requires code in Rates
    ensures ConvertedTenThousandths(usdPrice, code) as real / 10000.0 == Value(usdPrice) * Rate(code)
  {
    var h, r := Hundredths(usdPrice), Rates[code];
    assert (h as real / 100.0) * (r as real / 100.0) == (h * r) as real / 10000.0;
  }

  /** `f"{x:.2f}"` of the number with `h` hundredths. */
  function Fixed2(h: nat): string
  {
    NatToString(h / 100) + "." + [DigitChar(h / 10 % 10), DigitChar(h % 10)]
  }

  /** `str(x)` for a Python amount: `"100"` for an int, and for a float
      the shortest form that reads back as the same value (`"100.99"`,
      `"5.5"`, `"7.0"`). */
  function PyStr(a: Amount): string
  {
    match a
    case IntAmount(d) => NatToString(d)
    case FloatAmount(h) =>
      NatToString(h / 100) + "." +
        (if h % 100 == 0 then "0"
         else if h % 10 == 0 then [DigitChar(h / 10 % 10)]
         else [DigitChar(h / 10 % 10), DigitChar(h % 10)])
  }

  /** `convert_price(usd_price, target_currency)`.  An unknown code falls
      back to `"$"` and the amount's own string form; JPY and INR show the
      converted value truncated to an integer; every other known code shows
      it with two decimals. */
  function ConvertPrice(usdPrice: Amount, target: string): string
  {
    if target !in Rates then "$" + PyStr(usdPrice)
    else
      var converted := ConvertedTenThousandths(usdPrice, target);
      var symbol := Symbols[target];
      if target in WholeUnitCurrencies then symbol + NatToString(converted / 10000)
      else symbol + Fixed2((converted + 50) / 100)
  }

  // ------------------------------------------------- reading a price back

  /** Reads a decimal numeral (`"12"`, `"12.5"`, `"12.50"`) back as a
      number; anything else is None. */
  function ParseNumber(s: string): Option<real>
  {
    match IndexOf(s, '.')
    case None =>
      if s != [] && AllDigits(s) then Some(DigitsValue(s) as real) else None
    case Some(i) =>
      var whole, frac := s[..i], s[i + 1..];
      if whole != [] && AllDigits(whole) && frac != [] && AllDigits(frac)
      then Some(DigitsValue(whole) as real + DigitsValue(frac) as real / Pow10(|frac|) as real)
      else None
  }

  function Pow10(n: nat): (p: nat)
    ensures p > 0
  {
    if n == 0 then 1 else 10 * Pow10(n - 1)
  }

  /** The text after the currency symbol in `ConvertPrice`'s output. */
  function Numeral(r: string, target: string): string
    requires target in Rates && |Symbols[target]| <= |r|
  {
    r[|Symbols[target]|..]
  }

  lemma NatNumeral(n: nat)
    ensures ParseNumber(NatToString(n)) == Some(n as real)
  {
    NatToStringRoundTrip(n);
  }

  /** Reading back a numeral with a whole part and a fraction. */
  lemma {:induction false} DecimalNumeral(w: nat, frac: string, p: nat)
    requires frac != [] && AllDigits(frac) && p == Pow10(|frac|)
    ensures ParseNumber(NatToString(w) + "." + frac)
      == Some(w as real + DigitsValue(frac) as real / p as real)
  {
    var ws := NatToString(w);
    var s := ws + "." + frac;
    var k := IndexOf(s, '.');
    assert s[|ws|] == '.';
    assert s[..|ws|] == ws;
    assert k == Some(|ws|);
    assert s[|ws| + 1..] == frac;
    NatToStringRoundTrip(w);
  }

  lemma TwoDigits(h: nat)
    ensures AllDigits([DigitChar(h / 10 % 10), DigitChar(h % 10)])
    ensures DigitsValue([DigitChar(h / 10 % 10), DigitChar(h % 10)]) == h % 100
  {
    DigitPair(h / 10 % 10, h % 10);
    LastTwoDigits(h);
  }

  /** Two digit characters read as a two-digit number. */
  lemma DigitPair(t: nat, u: nat)
    requires t < 10 && u < 10
    ensures AllDigits([DigitChar(t), DigitChar(u)])
    ensures DigitsValue([DigitChar(t), DigitChar(u)]) == 10 * t + u
  {
    var d1, d2 := DigitChar(t), DigitChar(u);
    DigitsValueSnoc([], d1);
    assert [] + [d1] == [d1];
    DigitsValueSnoc([d1], d2);
    assert [d1] + [d2] == [d1, d2];
  }

  /** The last two decimal digits of `h`. */
  lemma LastTwoDigits(h: nat)
    ensures h % 100 == 10 * (h / 10 % 10) + h % 10
  {
    var a := h / 10;
    var b := a / 10;
    assert h == 10 * a + h % 10;
    assert a == 10 * b + a % 10;
    assert h == 100 * b + (10 * (a % 10) + h % 10);
  }

  /** Whole part `w` and two decimals worth `m` read as `w + m/100`. */
  lemma TwoDecimalsReads(w: nat, frac: string, m: nat)
    requires |frac| == 2 && AllDigits(frac) && DigitsValue(frac) == m
    ensures ParseNumber(NatToString(w) + "." + frac) == Some((100 * w + m) as real / 100.0)
  {
    Pow10Small();
    DecimalNumeral(w, frac, 100);
    HundredthsSum(w, m);
  }

  lemma HundredthsSum(w: nat, m: nat)
    ensures w as real + m as real / 100 as real == (100 * w + m) as real / 100.0
  {
  }

  lemma TenthsSum(w: nat, m: nat)
    ensures w as real + m as real / 10 as real == w as real + m as real / 10.0
  {
  }

  lemma Pow10Small()
    ensures Pow10(1) == 10 && Pow10(2) == 100
  {
    assert Pow10(0) == 1;
  }

  lemma Fixed2Reads(h: nat)
    ensures ParseNumber(Fixed2(h)) == Some(h as real / 100.0)
  {
    TwoDigits(h);
    TwoDecimalsReads(h / 100, [DigitChar(h / 10 % 10), DigitChar(h % 10)], h % 100);
    assert h == 100 * (h / 100) + h % 100;
  }

  /** `str(x)` reads back as exactly the amount, and a float is written in
      its shortest form: the whole part without leading zeros, a point, and
      one or two decimals, the last of which is `0` only in the single
      decimal `"0"` of a whole value. */
  lemma PyStrReads(a: Amount)
    ensures ParseNumber(PyStr(a)) == Some(Value(a))
    ensures a.FloatAmount? ==> FloatShape(PyStr(a), NatToString(a.hundredths / 100))
  {
    match a
    case IntAmount(d) => NatNumeral(d);
    case FloatAmount(h) => FloatStrReads(h); FloatStrShortest(h);
  }

  /** `s` is the whole part `w`, a point and one or two decimal digits,
      ending in `0` only when it is `w + ".0"`. */
  predicate FloatShape(s: string, w: string)
  {
    |w| + 2 <= |s| <= |w| + 3 && s[..|w|] == w && s[|w|] == '.'
    && AllDigits(s[|w| + 1..])
    && (s[|s| - 1] == '0' ==> s == w + ".0")
  }

  lemma FloatStrShortest(h: nat)
    ensures FloatShape(PyStr(FloatAmount(h)), NatToString(h / 100))
  {
    if h % 100 == 0 {
      assert PyStr(FloatAmount(h)) == NatToString(h / 100) + "." + "0";
      ShapeOf(NatToString(h / 100), "0");
    } else if h % 10 == 0 {
      TenthsShape(h);
    } else {
      TwoCentsShape(h);
    }
  }

  lemma TenthsShape(h: nat)
    requires h % 100 != 0 && h % 10 == 0
    ensures FloatShape(PyStr(FloatAmount(h)), NatToString(h / 100))
  {
    var a := h / 10;
    assert h == 10 * a;
    assert h % 100 == 10 * (a % 10);
    var c := DigitChar(a % 10);
    assert PyStr(FloatAmount(h)) == NatToString(h / 100) + "." + [c];
    ShapeOf(NatToString(h / 100), [c]);
  }

  lemma TwoCentsShape(h: nat)
    requires h % 10 != 0
    ensures FloatShape(PyStr(FloatAmount(h)), NatToString(h / 100))
  {
    var f := [DigitChar(h / 10 % 10), DigitChar(h % 10)];
    assert PyStr(FloatAmount(h)) == NatToString(h / 100) + "." + f;
    ShapeOf(NatToString(h / 100), f);
  }

  /** A whole part, a point and a short fraction without a needless
      trailing zero have the float shape. */
  lemma ShapeOf(w: string, f: string)
    requires 1 <= |f| <= 2 && AllDigits(f) && (f[|f| - 1] == '0' ==> f == "0")
    ensures FloatShape(w + "." + f, w)
  {
    var s := w + "." + f;
    assert s[..|w|] == w;
    assert s[|w|] == '.';
    assert s[|w| + 1..] == f;
    assert s[|s| - 1] == f[|f| - 1];
  }

  lemma FloatStrReads(h: nat)
    ensures ParseNumber(PyStr(FloatAmount(h))) == Some(h as real / 100.0)
  {
    if h % 100 == 0 {
      WholeFloatReads(h);
    } else if h % 10 == 0 {
      TenthsFloatReads(h);
    } else {
      TwoCentsFloatReads(h);
    }
  }

  lemma TwoCentsFloatReads(h: nat)
    requires h % 10 != 0
    ensures ParseNumber(PyStr(FloatAmount(h))) == Some(h as real / 100.0)
  {
    var w := h / 100;
    var f := [DigitChar(h / 10 % 10), DigitChar(h % 10)];
    TwoDigits(h);
    assert PyStr(FloatAmount(h)) == NatToString(w) + "." + f;
    TwoDecimalsReads(w, f, h % 100);
    assert h == 100 * w + h % 100;
  }

  lemma WholeFloatReads(h: nat)
    requires h % 100 == 0
    ensures ParseNumber(PyStr(FloatAmount(h))) == Some(h as real / 100.0)
  {
    var w := h / 100;
    assert PyStr(FloatAmount(h)) == NatToString(w) + "." + ['0'];
    TenthsNumeral(w, '0');
    WholeHundredths(h);
  }

  lemma WholeHundredths(h: nat)
    requires h % 100 == 0
    ensures h as real / 100.0 == (h / 100) as real + 0 as real / 10.0
  {
    var w := h / 100;
    assert h == 100 * w;
    assert h as real == 100.0 * w as real;
  }

  lemma TenthsFloatReads(h: nat)
    requires h % 100 != 0 && h % 10 == 0
    ensures ParseNumber(PyStr(FloatAmount(h))) == Some(h as real / 100.0)
  {
    var a := h / 10;
    var w, d := h / 100, a % 10;
    assert h == 10 * a;
    assert a == 10 * (a / 10) + d;
    assert w == a / 10;
    assert h == 100 * w + 10 * d;
    assert h as real / 100.0 == w as real + d as real / 10.0;
    var c := DigitChar(d);
    assert PyStr(FloatAmount(h)) == NatToString(w) + "." + [c];
    TenthsNumeral(w, c);
  }

  lemma TenthsNumeral(w: nat, c: char)
    requires IsDigit(c)
    ensures ParseNumber(NatToString(w) + "." + [c])
      == Some(w as real + (c as int - '0' as int) as real / 10.0)
  {
    OneDigit(c);
    OneDecimalReads(w, [c], c as int - '0' as int);
  }

  /** Whole part `w` and one decimal worth `m` read as `w + m/10`. */
  lemma OneDecimalReads(w: nat, frac: string, m: nat)
    requires |frac| == 1 && AllDigits(frac) && DigitsValue(frac) == m
    ensures ParseNumber(NatToString(w) + "." + frac) == Some(w as real + m as real / 10.0)
  {
    Pow10Small();
    DecimalNumeral(w, frac, 10);
    TenthsSum(w, m);
  }

  lemma OneDigit(c: char)
    requires IsDigit(c)
    ensures AllDigits([c]) && DigitsValue([c]) == c as int - '0' as int
  {
    DigitsValueSnoc([], c);
    assert [] + [c] == [c];
  }

  // ------------------------------------------------------------ properties

  /** A known code's output starts with its symbol, followed by at least
      one more character; an unknown code's output is `"$"` and the
      amount as Python prints it. */
  lemma ConvertPriceShape(usdPrice: Amount, target: string)
    ensures var r := ConvertPrice(usdPrice, target);
      (target !in Rates ==> r == "$" + PyStr(usdPrice)) &&
      (target in Rates ==> |Symbols[target]| < |r| && r[..|Symbols[target]|] == Symbols[target])
  {
    if target in Rates {
      var t := ConvertedTenThousandths(usdPrice, target);
      if target in WholeUnitCurrencies {
        assert |NatToString(t / 10000)| > 0;
      } else {
        assert |Fixed2((t + 50) / 100)| > 0;
      }
    }
  }

  /** An unknown code shows `"$"` and the amount as Python prints it, with
      no conversion: an int price of 100 shows as `"$100"`. */
  lemma UnknownCurrencyFallsBack(usdPrice: Amount, target: string)
    requires target !in Rates
    ensures var r := ConvertPrice(usdPrice, target);
      r[0] == '$' && ParseNumber(r[1..]) == Some(Value(usdPrice))
  {
    PyStrReads(usdPrice);
    var r := ConvertPrice(usdPrice, target);
    assert r[1..] == PyStr(usdPrice);
  }

  /** JPY and INR: the symbol, then only digits (no decimal point), naming
      the converted value truncated toward zero. */
  lemma WholeUnitTruncates(usdPrice: Amount, target: string)
    requires target in WholeUnitCurrencies
    ensures target in Rates && |Symbols[target]| < |ConvertPrice(usdPrice, target)|
    ensures var r := ConvertPrice(usdPrice, target);
      var num := Numeral(r, target);
      num != [] && AllDigits(num) && '.' !in num &&
      ParseNumber(num).Some? &&
      var n := ParseNumber(num).value;
      n == n.Floor as real && n <= Value(usdPrice) * Rate(target) < n + 1.0
  {
    var t := ConvertedTenThousandths(usdPrice, target);
    ConvertedValue(usdPrice, target);
    var r := ConvertPrice(usdPrice, target);
    var n := t / 10000;
    assert r == Symbols[target] + NatToString(n);
    assert Numeral(r, target) == NatToString(n);
    NatNumeral(n);
    assert n * 10000 <= t < (n + 1) * 10000;
  }

  /** Every other known code: the symbol, then digits, a point and exactly
      two digits, naming the converted value to within half a hundredth. */
  lemma OtherCurrenciesShowTwoDecimals(usdPrice: Amount, target: string)
    requires target in Rates && target !in WholeUnitCurrencies
    ensures |Symbols[target]| < |ConvertPrice(usdPrice, target)|
    ensures var r := ConvertPrice(usdPrice, target);
      var num := Numeral(r, target);
      |num| >= 4 && num[|num| - 3] == '.' && IsDigit(num[|num| - 2]) && IsDigit(num[|num| - 1]) &&
      AllDigits(num[..|num| - 3]) &&
      ParseNumber(num).Some? &&
      var v := ParseNumber(num).value;
      -0.005 < v - Value(usdPrice) * Rate(target) <= 0.005
  {
    var t := ConvertedTenThousandths(usdPrice, target);
    ConvertedValue(usdPrice, target);
    var r := ConvertPrice(usdPrice, target);
    var h := (t + 50) / 100;
    assert r == Symbols[target] + Fixed2(h);
    var num := Numeral(r, target);
    assert num == Fixed2(h);
    var w := NatToString(h / 100);
    assert num[..|num| - 3] == w;
    Fixed2Reads(h);
    assert h * 100 <= t + 50 < h * 100 + 100;
  }

  /** One price per branch: a known two-decimal code, a whole-unit code,
      and the fallback for an int and for a float amount. */
  lemma ConvertExamples()
    ensures ConvertPrice(IntAmount(100), "USD") == "$100.00"
    ensures ConvertPrice(IntAmount(100), "JPY") == "\U{00A5}11000"
    ensures ConvertPrice(IntAmount(100), "XXX") == "$100"
    ensures ConvertPrice(FloatAmount(10099), "XXX") == "$100.99"
  {
    HundredDollars();
    HundredDollarsInYen();
    HundredDollarsUnknownCode();
    FloatUnknownCode();
  }

  lemma HundredDollars()
    ensures ConvertPrice(IntAmount(100), "USD") == "$100.00"
  {
    DollarEntry();
    HundredFixed();
    assert ConvertedTenThousandths(IntAmount(100), "USD") == 1000000;
    assert (1000000 + 50) / 100 == 10000;
  }

  /** The dollar's entry: rate 1, symbol `$`, shown with decimals. */
  lemma DollarEntry()
    ensures "USD" in Rates && Rates["USD"] == 100 && Symbols["USD"] == "$"
    ensures "USD" !in WholeUnitCurrencies
  {
  }

  lemma HundredFixed()
    ensures Fixed2(10000) == "100.00"
  {
    assert NatToString(100) == "100";
    assert DigitChar(0) == '0';
  }

  lemma HundredDollarsInYen()
    ensures ConvertPrice(IntAmount(100), "JPY") == "\U{00A5}11000"
  {
    assert "JPY" in Rates && Rates["JPY"] == 11000 && Symbols["JPY"] == "\U{00A5}";
    assert "JPY" in WholeUnitCurrencies;
    assert ConvertedTenThousandths(IntAmount(100), "JPY") == 110000000;
    assert NatToString(11000) == "11000";
  }

  /** `XXX` is not a code of the rate table. */
  lemma UnknownCode()
    ensures "XXX" !in Rates
  {
  }

  lemma HundredDollarsUnknownCode()
    ensures ConvertPrice(IntAmount(100), "XXX") == "$100"
  {
    UnknownCode();
    assert PyStr(IntAmount(100)) == "100" by {
      assert NatToString(100) == "100";
    }
  }

  lemma FloatUnknownCode()
    ensures ConvertPrice(FloatAmount(10099), "XXX") == "$100.99"
  {
    UnknownCode();
    assert PyStr(FloatAmount(10099)) == "100.99" by {
      assert NatToString(100) == "100";
    }
  }
}
