/**
 * The saved-rundown detail page: its price formatting, the time shown for
 * an activity, the budget range it computes when the rundown carries none,
 * and the normalisation of the two itinerary shapes it is given (a list of
 * days with destinations, or the generator's flat list of activities).
 */
module RundownDetail {
  import opened JsValues
  import opened Records
  import opened Prices

  // ---------------------------------------------------------------------------
  // Prices (`parsePrice` is `Prices.ParsePrice`)

  /**
   * `Intl.NumberFormat('id-ID', {style: 'currency', currency: 'IDR'})` with
   * no fraction digits, for a whole number of rupiah.
   */
  function Rupiah(n: int): (r: string)
    ensures |r| >= 4
  {
    if n >= 0 then "Rp " + FormatNumber(n) else "-Rp " + FormatNumber(-n)
  }

  /** Rounding an amount given in tenths to a whole number, halves away from zero. */
  function RoundAway(x10: int): int
  {
    if x10 >= 0 then RoundTenths(x10) else -RoundTenths(-x10)
  }

  /** `formatSinglePrice` of an amount given in tenths of rupiah: `'-'` for 0. */
  function SinglePrice(x10: int): (r: string)
    ensures r == "-" <==> x10 == 0
  {
    if x10 == 0 then "-" else Rupiah(RoundAway(x10))
  }

  /** `formatSinglePrice(v)`. */
  function FormatSinglePrice(v: Value): string
  {
    SinglePrice(10 * ParsePrice(v))
  }

  /** `formatPriceRange` of two amounts given in tenths of rupiah. */
  function PriceRange(min10: int, max10: int): string
  {
    if min10 == 0 && max10 == 0 then "-"
    else if min10 == max10 then SinglePrice(min10) + "/pax"
    else SinglePrice(min10) + " - " + SinglePrice(max10) + "/pax"
  }

  /** `formatPriceRange(minPrice, maxPrice)`. */
  function FormatPriceRange(minPrice: Value, maxPrice: Value): string
  {
    PriceRange(10 * ParsePrice(minPrice), 10 * ParsePrice(maxPrice))
  }

  /**
   * The range is `'-'` exactly when both prices parse to 0; two equal prices
   * are shown once, two different ones as `min - max`, each per person.
   */
  lemma PriceRangeCases(minPrice: Value, maxPrice: Value)
    ensures var r := FormatPriceRange(minPrice, maxPrice);
            && (r == "-" <==> ParsePrice(minPrice) == 0 && ParsePrice(maxPrice) == 0)
            && (ParsePrice(minPrice) == ParsePrice(maxPrice) != 0 ==> r == FormatSinglePrice(minPrice) + "/pax")
            && (ParsePrice(minPrice) != ParsePrice(maxPrice) ==>
                  r == FormatSinglePrice(minPrice) + " - " + FormatSinglePrice(maxPrice) + "/pax")
  {
    var a, b := 10 * ParsePrice(minPrice), 10 * ParsePrice(maxPrice);
    if !(a == 0 && b == 0) {
      var r := FormatPriceRange(minPrice, maxPrice);
      assert |r| > 1;
    }
  }

  /** A positive price shown as rupiah parses back to the same price. */
  lemma SinglePriceParses(n: int)
    requires n > 0
    ensures ParsePrice(VStr(FormatSinglePrice(VNum(n)))) == n
  {
    assert RoundAway(10 * n) == n;
    var f := FormatNumber(n);
    DigitsNone("Rp ");
    DigitsAppend("Rp ", f);
    FormatNumberDigits(n);
    assert Digits("Rp " + f) == NatToString(n);
  }

  // ---------------------------------------------------------------------------
  // Times

  /**
   * `formatTime`: `''` for a missing or empty time; otherwise the text up
   * to the first `:`, a `:`, and the text up to the next one (`undefined`
   * when there is no `:`). A number has no `split`: `None`.
   */
  function FormatTime(t: Value): (r: Option<string>)
    ensures !Truthy(t) ==> r == Some("")
    ensures t.VNum? && t.n != 0 ==> r.None?
  {
    if !Truthy(t) then Some("")
    else if t.VNum? then None
    else
      var parts := Split(t.s, ':');
      Some(parts[0] + ":" + (if |parts| > 1 then parts[1] else "undefined"))
  }

  /** The first part of a split is everything before the first separator. */
  lemma SplitFirst(s: string, c: char)
    ensures c !in s ==> Split(s, c)[0] == s
    ensures c in s ==> Split(s, c)[0] == s[..IndexOf(s, c)]
  {
  }

  /**
   * A clock time `HH:MM` is shown as it is, and `HH:MM:SS` (or anything
   * after a second `:`) loses the part from the second `:` on.
   */
  lemma FormatTimeKeeps(h: string, m: string, rest: string)
    requires ':' !in h && ':' !in m
    requires rest == [] || rest[0] == ':'
    ensures FormatTime(VStr(h + ":" + m + rest)) == Some(h + ":" + m)
  {
    var s := h + ":" + m + rest;
    assert s[|h|] == ':';
    var i := IndexOf(s, ':');
    assert i == |h|;
    assert s[..i] == h;
    var t := s[i + 1..];
    assert s == h + ":" + (m + rest);
    assert t == m + rest;
    if rest == [] {
      assert t == m;
      assert ':' !in t;
    } else {
      assert t[|m|] == ':';
      var j := IndexOf(t, ':');
      assert j == |m|;
      assert t[..j] == m;
    }
    SplitFirst(t, ':');
    assert Split(t, ':')[0] == m;
    assert Split(s, ':') == [h] + Split(t, ':');
    assert Split(s, ':')[1] == m;
  }

  // ---------------------------------------------------------------------------
  // Itinerary shapes

  /** A day of a rundown: its own fields and, when it has a truthy one, its `destinations` array. */
  datatype Day = Day(fields: Obj, destinations: Option<seq<Obj>>)

  /** The `itinerary` field of a stored rundown. */
  datatype RawItinerary = Falsy | NotArray | Elements(elems: seq<Day>)

  /** `dest.name || dest.destinationName || \`Aktivitas ${dest.order}\``. */
  function DayDestName(dest: Obj): (v: Value)
    ensures Truthy(v)
  {
    Or(Get(dest, Name), Or(Get(dest, DestinationName), VStr("Aktivitas " + ValueString(Get(dest, Order)))))
  }

  /** `dest.price || (dest.minPrice ? formatSinglePrice(dest.minPrice) : '-')`. */
  function DayDestPrice(dest: Obj): (v: Value)
    ensures Truthy(v)
  {
    var p := Get(dest, Price);
    if Truthy(p) then p
    else if Truthy(Get(dest, MinPrice)) then
      var f := FormatSinglePrice(Get(dest, MinPrice));
      assert f != "";
      VStr(f)
    else VStr("-")
  }

  /** `parsePrice(dest[k] || dest.price || dest.cost || dest.estimatedCost)`. */
  function BoundPrice(dest: Obj, k: Field): Value
  {
    VNum(ParsePrice(FirstOf(dest, [k, Price, Cost], Get(dest, EstimatedCost))))
  }

  /** A destination of a day-shaped itinerary: its own fields, with the derived ones over them. */
  function DayDest(dest: Obj): (r: Obj)
    ensures Get(r, Name) == DayDestName(dest) && Get(r, Price) == DayDestPrice(dest)
    ensures Get(r, MinPrice) == BoundPrice(dest, MinPrice) && Get(r, MaxPrice) == BoundPrice(dest, MaxPrice)
    ensures Get(r, Time) == Or(Get(dest, Time), Get(dest, StartTime))
    ensures Get(r, Description) == Or(Get(dest, Description), Get(dest, Notes))
    ensures forall k :: k !in {Name, Price, MinPrice, MaxPrice, Time, Description} ==> Get(r, k) == Get(dest, k)
  {
    dest[Name := DayDestName(dest)]
        [Price := DayDestPrice(dest)]
        [MinPrice := BoundPrice(dest, MinPrice)]
        [MaxPrice := BoundPrice(dest, MaxPrice)]
        [Time := Or(Get(dest, Time), Get(dest, StartTime))]
        [Description := Or(Get(dest, Description), Get(dest, Notes))]
  }

  /** A flat activity as the single day shows it: a new object of nine fields. */
  function FlatDest(item: Obj): (r: Obj)
    ensures Get(r, Name) == FirstOf(item, [DestinationName, Name, Activity], VStr("Aktivitas"))
    ensures Get(r, Price) == Or(Get(item, Price), VStr("-"))
    ensures Get(r, Order) == Or(Get(item, Order), VNum(0))
    ensures Get(r, MinPrice) == BoundPrice(item, MinPrice) && Get(r, MaxPrice) == BoundPrice(item, MaxPrice)
    ensures Get(r, Rating) == Get(item, Rating) && Get(r, Category) == Get(item, Category)
  {
    map[Name := FirstOf(item, [DestinationName, Name, Activity], VStr("Aktivitas"))]
       [Description := Or(Get(item, Notes), Get(item, Description))]
       [Order := Or(Get(item, Order), VNum(0))]
       [Price := Or(Get(item, Price), VStr("-"))]
       [MinPrice := BoundPrice(item, MinPrice)]
       [MaxPrice := BoundPrice(item, MaxPrice)]
       [Time := Or(Get(item, Time), Get(item, StartTime))]
       [Rating := Get(item, Rating)]
       [Category := Get(item, Category)]
  }

  /** `itinerary[0]?.destinations` is truthy. */
  predicate DayShaped(elems: seq<Day>)
  {
    elems != [] && elems[0].destinations.Some?
  }

  /** `itinerary[0]?.activity || itinerary[0]?.destinationName || itinerary[0]?.name`. */
  predicate FlatShaped(elems: seq<Day>)
  {
    elems != [] &&
    (Truthy(Get(elems[0].fields, Activity)) || Truthy(Get(elems[0].fields, DestinationName))
     || Truthy(Get(elems[0].fields, Name)))
  }

  /**
   * `normalizeItinerary`: nothing for a missing, non-array, empty or
   * unrecognised itinerary; the days with their destinations normalised
   * for a day-shaped one (`None` when a later day has no `destinations`,
   * whose `map` then throws); one day numbered 1 for a flat one.
   */
  function Normalize(raw: RawItinerary): (r: Option<seq<Day>>)
  {
    match raw
    case Falsy => Some([])
    case NotArray => Some([])
    case Elements(elems) =>
      if DayShaped(elems) then
        if exists i :: 0 <= i < |elems| && elems[i].destinations.None? then None
        else Some(seq(|elems|, i requires 0 <= i < |elems| =>
               var ds := elems[i].destinations.value;
               Day(elems[i].fields, Some(seq(|ds|, j requires 0 <= j < |ds| => DayDest(ds[j]))))))
      else if FlatShaped(elems) then
        Some([Day(map[DayNumber := VNum(1)],
                  Some(seq(|elems|, i requires 0 <= i < |elems| => FlatDest(elems[i].fields))))])
      else Some([])
  }

  /**
   * A day-shaped itinerary whose days all have destinations keeps its days,
   * each day's own fields and its number of destinations, each destination
   * normalised in place.
   */
  lemma NormalizeDays(elems: seq<Day>)
    requires DayShaped(elems)
    requires forall i :: 0 <= i < |elems| ==> elems[i].destinations.Some?
    ensures var r := Normalize(Elements(elems));
            && r.Some? && |r.value| == |elems|
            && forall i :: 0 <= i < |elems| ==>
                 && r.value[i].fields == elems[i].fields
                 && r.value[i].destinations.Some?
                 && |r.value[i].destinations.value| == |elems[i].destinations.value|
                 && forall j :: 0 <= j < |elems[i].destinations.value| ==>
                      r.value[i].destinations.value[j] == DayDest(elems[i].destinations.value[j])
  {
  }

  /**
   * A flat itinerary becomes one day numbered 1 with one destination per
   * activity, in order, priced by `parsePrice`.
   */
  lemma NormalizeFlat(elems: seq<Day>)
    requires !DayShaped(elems) && FlatShaped(elems)
    ensures var r := Normalize(Elements(elems));
            && r.Some? && |r.value| == 1
            && Get(r.value[0].fields, DayNumber) == VNum(1)
            && r.value[0].destinations.Some?
            && var ds := r.value[0].destinations.value;
               && |ds| == |elems|
               && forall i :: 0 <= i < |elems| ==>
                    && Get(ds[i], MinPrice) == BoundPrice(elems[i].fields, MinPrice)
                    && Get(ds[i], MaxPrice) == BoundPrice(elems[i].fields, MaxPrice)
  {
  }

  /** An itinerary of neither shape is shown as no days at all. */
  lemma NormalizeUnrecognised(elems: seq<Day>)
    requires !DayShaped(elems) && !FlatShaped(elems)
    ensures Normalize(Elements(elems)) == Some([])
  {
  }

  /** `day.destinations?.length || 0`, added over the days. */
  function DestinationCount(days: seq<Day>): (n: nat)
  {
    if days == [] then 0
    else
      var last := days[|days| - 1];
      DestinationCount(days[..|days| - 1]) + (if last.destinations.Some? then |last.destinations.value| else 0)
  }

  /** The page's destination count of a flat itinerary is its number of activities. */
  lemma FlatCount(elems: seq<Day>)
    requires !DayShaped(elems) && FlatShaped(elems)
    ensures DestinationCount(Normalize(Elements(elems)).value) == |elems|
  {
    var days := Normalize(Elements(elems)).value;
    assert days[..0] == [];
  }

  // ---------------------------------------------------------------------------
  // Budget

  /**
   * The price a destination adds to the budget: its `price` as it is when it
   * is a string with `Rp` in it, else `minPrice || price || cost ||
   * estimatedCost || 0`, through `parsePrice`.
   */
  function DestPrice(dest: Obj): int
  {
    var p := Get(dest, Price);
    if p.VStr? && p.s != "" && Contains(p.s, "Rp") then ParsePrice(p)
    else ParsePrice(FirstOf(dest, [MinPrice, Price, Cost, EstimatedCost], VNum(0)))
  }

  function DestPrices(ds: seq<Obj>): (r: seq<int>)
  {
    if ds == [] then [] else DestPrices(ds[..|ds| - 1]) + [DestPrice(ds[|ds| - 1])]
  }

  /** The prices of every destination of every day that has destinations, in order. */
  function DayPrices(days: seq<Day>): (r: seq<int>)
  {
    if days == [] then []
    else
      var last := days[|days| - 1];
      DayPrices(days[..|days| - 1]) + (if last.destinations.Some? then DestPrices(last.destinations.value) else [])
  }

  /**
   * `calculateBudgetEstimation`: the range from the sum of the prices to
   * 1.1 times that plus 10 000, both in tenths, through `formatPriceRange`.
   */
  function BudgetEstimation(days: seq<Day>): string
  {
    var s := Sum(DayPrices(days));
    PriceRange(10 * s, 11 * s + 100000)
  }

  lemma SumSnoc(xs: seq<int>, x: int)
    ensures Sum(xs + [x]) == Sum(xs) + x
  {
    assert (xs + [x])[..|xs|] == xs;
  }

  /** The inner `forEach` over one day's destinations, adding to the running totals. */
  method AddDestinations(ds: seq<Obj>, low0: int, high0: int) returns (low: int, high10: int)
    ensures low == low0 + Sum(DestPrices(ds))
    ensures high10 == high0 + 11 * Sum(DestPrices(ds))
  {
    low, high10 := low0, high0;
    for j := 0 to |ds|
      invariant low == low0 + Sum(DestPrices(ds[..j]))
      invariant high10 == high0 + 11 * Sum(DestPrices(ds[..j]))
    {
      var p := DestPrice(ds[j]);
      assert ds[..j + 1][..j] == ds[..j];
      SumSnoc(DestPrices(ds[..j]), p);
      low := low + p;
      high10 := high10 + 11 * p;
    }
    assert ds[..|ds|] == ds;
  }

  /** The prices of one more day are those of the days before, then that day's. */
  lemma DayPricesSnoc(days: seq<Day>, i: nat)
    requires i < |days|
    ensures Sum(DayPrices(days[..i + 1])) ==
              Sum(DayPrices(days[..i])) + (if days[i].destinations.Some? then Sum(DestPrices(days[i].destinations.value)) else 0)
  {
    var pre := days[..i + 1];
    assert pre[..|pre| - 1] == days[..i] && pre[|pre| - 1] == days[i];
    if days[i].destinations.Some? {
      assert DayPrices(pre) == DayPrices(days[..i]) + DestPrices(days[i].destinations.value);
      SumAppend(DayPrices(days[..i]), DestPrices(days[i].destinations.value));
    } else {
      assert DayPrices(pre) == DayPrices(days[..i]) + [];
      assert DayPrices(days[..i]) + [] == DayPrices(days[..i]);
    }
  }

  /** The nested `forEach` over the days and their destinations, adding up `totalLow` and `totalHigh`. */
  method EstimateBudget(days: seq<Day>) returns (text: string)
    ensures text == BudgetEstimation(days)
  {
    var low, high10 := 0, 0;
    for i := 0 to |days|
      invariant low == Sum(DayPrices(days[..i])) && high10 == 11 * low
    {
      DayPricesSnoc(days, i);
      if days[i].destinations.Some? {
        low, high10 := AddDestinations(days[i].destinations.value, low, high10);
      }
    }
    assert days[..|days|] == days;
    high10 := high10 + 100000;
    text := PriceRange(10 * low, high10);
  }

  /**
   * With no negative price the two ends always differ, so the text is never
   * `'-'` nor a single price: it is `low - high/pax` with high 10 000 plus
   * 1.1 times the sum, rounded.
   */
  lemma BudgetEstimationRange(days: seq<Day>)
    requires forall i :: 0 <= i < |DayPrices(days)| ==> DayPrices(days)[i] >= 0
    ensures var s := Sum(DayPrices(days));
            BudgetEstimation(days) == SinglePrice(10 * s) + " - " + Rupiah(HighEnd(s)) + "/pax"
  {
    SumNonNegative(DayPrices(days));
    RangeOfSum(Sum(DayPrices(days)), BudgetEstimation(days));
  }

  lemma RangeOfSum(s: int, t: string)
    requires s >= 0 && t == PriceRange(10 * s, 11 * s + 100000)
    ensures t == SinglePrice(10 * s) + " - " + Rupiah(HighEnd(s)) + "/pax"
  {
    RangeHigh(s);
    assert RoundAway(11 * s + 100000) == HighEnd(s);
  }

  /** An itinerary whose prices are all 0 shows `'-'` as the low end of its range. */
  lemma BudgetEstimationFree(days: seq<Day>)
    requires Sum(DayPrices(days)) == 0
    ensures BudgetEstimation(days) == "- - " + Rupiah(10000) + "/pax"
  {
    var t := BudgetEstimation(days);
    assert t == PriceRange(0, 100000);
    assert RoundAway(100000) == 10000;
  }
}
