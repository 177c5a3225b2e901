/**
 * The two ways the front end reads a price out of a loosely typed field:
 * `parsePrice` of the save dialog, the detail page and the trip popup
 * (every digit of a string, concatenated), and the itinerary engine's
 * `match(/(\d+[\d.,]*)/g)[0]` (the first run of digits, dots and commas,
 * with the dots and commas dropped).
 */
module Prices {
  import opened JsValues

  /**
   * `parsePrice`: nothing gives 0, a number is returned as it is, a string
   * gives the value of all its digits concatenated (0 when it has none).
   */
  function ParsePrice(v: Value): (p: int)
    ensures v.VNone? ==> p == 0
    ensures v.VNum? ==> p == v.n
    ensures v.VStr? ==> p >= 0 && (p == 0 <==> AllZero(Digits(v.s)))
  {
    match v
    case VNone => 0
    case VNum(n) => n
    case VStr(s) =>
      var d := Digits(s);
      ZeroValue(d);
      if d == [] then 0 else DigitsValue(d)
  }

  predicate AllZero(d: string)
  {
    forall i :: 0 <= i < |d| ==> d[i] == '0'
  }

  /** A digit string has value 0 exactly when all its digits are zeros. */
  lemma {:induction false} ZeroValue(d: string)
    requires AllDigits(d)
    ensures DigitsValue(d) == 0 <==> AllZero(d)
  {
    if d != [] {
      ZeroValue(d[..|d| - 1]);
      if AllZero(d) {
        assert AllZero(d[..|d| - 1]);
      }
      if DigitsValue(d) == 0 {
        forall i | 0 <= i < |d|
          ensures d[i] == '0'
        {
          if i < |d| - 1 {
            assert d[..|d| - 1][i] == d[i];
          }
        }
      }
    }
  }

  /** Characters that are not digits do not change the parsed price. */
  lemma ParsePriceIgnoresNonDigit(a: string, c: char, b: string)
    requires !IsDigit(c)
    ensures ParsePrice(VStr(a + [c] + b)) == ParsePrice(VStr(a + b))
  {
    DigitsAppend(a + [c], b);
    DigitsAppend(a, [c]);
    DigitsAppend(a, b);
    assert Digits([c]) == [];
    assert Digits(a + [c] + b) == Digits(a + b);
  }

  /** A price written as `"Rp <n>"` (the trip list's format) parses back to `n`. */
  lemma ParsePriceRupiah(n: nat)
    ensures ParsePrice(VStr("Rp " + NatToString(n))) == n
  {
    var d := NatToString(n);
    DigitsAppend("Rp ", d);
    DigitsNone("Rp ");
    DigitsOfDigits(d);
    NatToStringValue(n);
    assert Digits("Rp " + d) == d;
  }

  /** A thousands-separated amount parses back to the amount. */
  lemma ParsePriceFormatted(n: nat)
    ensures ParsePrice(VStr(FormatNumber(n))) == n
  {
    FormatNumberDigits(n);
  }

  // ---------------------------------------------------------------------------
  // The engine's price extraction

  predicate IsRunChar(c: char)
  {
    IsDigit(c) || c == '.' || c == ','
  }

  /** The suffix of `s` from its first digit on (empty when `s` has no digit). */
  function FromFirstDigit(s: string): (r: string)
    ensures |r| <= |s| && r == s[|s| - |r|..]
    ensures r != [] ==> IsDigit(r[0])
    ensures forall i :: 0 <= i < |s| - |r| ==> !IsDigit(s[i])
  {
    if s == [] || IsDigit(s[0]) then s else FromFirstDigit(s[1..])
  }

  /** The length of the longest prefix of `s` made of digits, dots and commas. */
  function RunLength(s: string): (n: nat)
    ensures n <= |s|
    ensures forall i :: 0 <= i < n ==> IsRunChar(s[i])
    ensures n < |s| ==> !IsRunChar(s[n])
  {
    if s != [] && IsRunChar(s[0]) then 1 + RunLength(s[1..]) else 0
  }

  /** The first match of `(\d+[\d.,]*)`: from the first digit, as long as digits, dots and commas go on. */
  function FirstNumberRun(s: string): (r: string)
  {
    var t := FromFirstDigit(s);
    t[..RunLength(t)]
  }

  /** `.replace(/[.,]/g, '')`. */
  function DropSeparators(s: string): (r: string)
    ensures forall i :: 0 <= i < |r| ==> r[i] != '.' && r[i] != ','
  {
    if s == [] then []
    else (if s[0] == '.' || s[0] == ',' then [] else [s[0]]) + DropSeparators(s[1..])
  }

  /** `parseInt(run.replace(/[.,]/g, ''), 10) || 0`, or 0 when the string has no digit. */
  function PriceRun(s: string): (p: nat)
  {
    var d := DropSeparators(FirstNumberRun(s));
    if d != [] && AllDigits(d) then DigitsValue(d) else 0
  }

  /** The engine's reading of a destination's price field, falling back to the catalog record's string price. */
  function EnginePrice(price: Value, original: Option<Value>): (p: int)
    ensures price.VNum? ==> p == price.n
    ensures !price.VNum? ==> p >= 0
  {
    match price
    case VNum(n) => n
    case VStr(s) => PriceRun(s)
    case VNone =>
      if original.Some? && original.value.VStr? then PriceRun(original.value.s) else 0
  }

  lemma {:induction false} DropSeparatorsOfRun(r: string)
    requires forall i :: 0 <= i < |r| ==> IsRunChar(r[i])
    ensures AllDigits(DropSeparators(r))
    ensures DropSeparators(r) == Digits(r)
  {
    if r != [] {
      DropSeparatorsOfRun(r[1..]);
    }
  }

  /** A string without any digit is priced 0. */
  lemma PriceRunNoDigit(s: string)
    requires forall i :: 0 <= i < |s| ==> !IsDigit(s[i])
    ensures PriceRun(s) == 0
  {
    assert FromFirstDigit(s) == [];
  }

  /**
   * When `s` has a digit, the price is the value of the digits of the first
   * run: the run starts at the first digit of `s` and stops before the first
   * character that is not a digit, a dot or a comma.
   */
  lemma PriceRunIsFirstRun(s: string)
    requires exists i :: 0 <= i < |s| && IsDigit(s[i])
    ensures var t := FromFirstDigit(s);
      t != [] && PriceRun(s) == DigitsValue(Digits(t[..RunLength(t)]))
  {
    var t := FromFirstDigit(s);
    var r := t[..RunLength(t)];
    DropSeparatorsOfRun(r);
    assert r[0] == t[0];
    assert Digits(r) != [] by {
      assert Digits(r) == [r[0]] + Digits(r[1..]);
    }
  }

  /**
   * Reading back the engine's budget string `"Rp <low> - <high>/pax"` with the
   * engine's own extraction gives the low estimate.
   */
  lemma PriceRunOfBudget(low: nat, rest: string)
    requires rest != [] && rest[0] == ' '
    ensures PriceRun("Rp " + FormatNumber(low) + rest) == low
  {
    var f := FormatNumber(low);
    GroupThousandsShape(NatToString(low));
    assert forall i :: 0 <= i < |f| ==> IsRunChar(f[i]);
    FromFirstDigitSkips("Rp ", f + rest);
    assert "Rp " + f + rest == "Rp " + (f + rest);
    RunOfPrefix(f, rest);
    assert FirstNumberRun("Rp " + f + rest) == f;
    DropSeparatorsOfRun(f);
    FormatNumberDigits(low);
  }

  // ---------------------------------------------------------------------------
  // Budget texts

  /** `Math.round` of a value given in tenths, halves rounded up. */
  function RoundTenths(x10: int): int
  {
    (x10 + 5) / 10
  }

  /** `Rp ${formatNumber(low)} - ${formatNumber(high)}/pax`. */
  function BudgetText(low: int, high: int): string
  {
    "Rp " + FormatNumber(low) + " - " + FormatNumber(high) + "/pax"
  }

  /** A budget text opens with `Rp `. */
  lemma BudgetTextOpens(low: int, high: int)
    ensures StartsWith(BudgetText(low, high), "Rp ")
  {
    var rest := FormatNumber(low) + " - " + FormatNumber(high) + "/pax";
    assert BudgetText(low, high) == "Rp " + rest;
  }

  /** Reading the first price of the budget text, as the engine reads prices, gives back the low end. */
  lemma BudgetTextLow(low: nat, high: int)
    ensures PriceRun(BudgetText(low, high)) == low
  {
    var rest := " - " + FormatNumber(high) + "/pax";
    assert BudgetText(low, high) == "Rp " + FormatNumber(low) + rest;
    PriceRunOfBudget(low, rest);
  }

  // ---------------------------------------------------------------------------
  // The trip pages' price range: the prices added up, and 1.1 times the sum plus 10 000

  /** The sum of a list of prices, added from the left. */
  function Sum(xs: seq<int>): int
  {
    if xs == [] then 0 else Sum(xs[..|xs| - 1]) + xs[|xs| - 1]
  }

  /** Adding up two runs of prices one after the other gives the sum of their sums. */
  lemma {:induction false} SumAppend(xs: seq<int>, ys: seq<int>)
    ensures Sum(xs + ys) == Sum(xs) + Sum(ys)
    decreases |ys|
  {
    if ys != [] {
      var zs := xs + ys;
      assert zs[..|zs| - 1] == xs + ys[..|ys| - 1];
      assert zs[|zs| - 1] == ys[|ys| - 1];
      SumAppend(xs, ys[..|ys| - 1]);
    } else {
      assert xs + ys == xs;
    }
  }

  /**
   * The `forEach` that adds `numericPrice` to `totalLow` and
   * `numericPrice * 1.1` to `totalHigh`, followed by the 10 000 transport
   * buffer on the high end; the high end is kept in tenths.
   */
  method AddUp(xs: seq<int>) returns (low: int, high10: int)
    ensures low == Sum(xs)
    ensures high10 == 11 * Sum(xs) + 100000
  {
    low, high10 := 0, 0;
    var i := 0;
    while i < |xs|
      invariant 0 <= i <= |xs|
      invariant low == Sum(xs[..i])
      invariant high10 == 11 * low
    {
      assert xs[..i + 1][..i] == xs[..i];
      low, high10 := low + xs[i], high10 + 11 * xs[i];
      i := i + 1;
    }
    assert xs[..|xs|] == xs;
    high10 := high10 + 100000;
  }

  /**
   * The rounded high end is the sum plus 10 000 plus a tenth of the sum
   * rounded to the nearest rupiah; for a sum that is not negative it lies
   * at least 10 000 above the low end.
   */
  lemma RangeHigh(low: int)
    ensures RoundTenths(11 * low + 100000) == HighEnd(low)
    ensures low >= 0 ==> HighEnd(low) >= low + 10000
  {
  }

  /** The sum plus 10 000 plus a tenth of the sum, rounded: `Math.round(1.1 * low + 10000)`. */
  function HighEnd(low: int): int
  {
    low + 10000 + RoundTenths(low)
  }

  /** `Rp ${formatNumber(low)} - ${formatNumber(high)}/pax` for the trip pages' range. */
  function RangeText(xs: seq<int>): string
  {
    BudgetText(Sum(xs), RoundTenths(11 * Sum(xs) + 100000))
  }

  /** A sum of prices none of which is negative is not negative. */
  lemma {:induction false} SumNonNegative(xs: seq<int>)
    requires forall i :: 0 <= i < |xs| ==> xs[i] >= 0
    ensures Sum(xs) >= 0
    decreases |xs|
  {
    if xs != [] {
      SumNonNegative(xs[..|xs| - 1]);
    }
  }

  /** The text's first amount, read as the engine reads prices, is the sum of the prices. */
  lemma RangeTextLow(xs: seq<int>)
    requires forall i :: 0 <= i < |xs| ==> xs[i] >= 0
    ensures PriceRun(RangeText(xs)) == Sum(xs)
  {
    SumNonNegative(xs);
    BudgetTextLow(Sum(xs), RoundTenths(11 * Sum(xs) + 100000));
  }

  /** The text's second amount is 10 000 plus 1.1 times the sum, rounded. */
  lemma RangeTextHigh(xs: seq<int>)
    ensures RangeText(xs) == BudgetText(Sum(xs), HighEnd(Sum(xs)))
  {
    RangeHigh(Sum(xs));
  }

  lemma {:induction false} FromFirstDigitSkips(p: string, t: string)
    requires forall i :: 0 <= i < |p| ==> !IsDigit(p[i])
    requires t != [] && IsDigit(t[0])
    ensures FromFirstDigit(p + t) == t
  {
    if p == [] {
      assert p + t == t;
    } else {
      assert (p + t)[1..] == p[1..] + t;
      FromFirstDigitSkips(p[1..], t);
    }
  }

  lemma {:induction false} RunOfPrefix(f: string, rest: string)
    requires forall i :: 0 <= i < |f| ==> IsRunChar(f[i])
    requires rest != [] && !IsRunChar(rest[0])
    ensures RunLength(f + rest) == |f|
    ensures (f + rest)[..RunLength(f + rest)] == f
  {
    if f != [] {
      assert (f + rest)[1..] == f[1..] + rest;
      RunOfPrefix(f[1..], rest);
    } else {
      assert f + rest == rest;
    }
  }
}
