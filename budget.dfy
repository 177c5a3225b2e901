/**
 * The budget estimate of a generated rundown: the prices of the used
 * destinations, a transport cost from the number of legs and area changes,
 * a meal allowance for meals not taken at a listed place, a floor, and the
 * incidentals; rendered as `Rp low - high/pax`.
 *
 * The high estimate is kept in tenths of a rupiah (`12 * price` for
 * `price * 1.2`), so that no fraction is lost before the final rounding.
 */
module Budget {
  import opened JsValues
  import opened Lists
  import opened Prices
  import opened Places
  import opened Itinerary
  import Selection

  // ---------------------------------------------------------------------------
  // The used destinations

  /** The summed price of the places of `trip` whose id was used, one term per place in order. */
  function UsedPrices(trip: seq<Place>, used: seq<string>): int
  {
    if trip == [] then 0
    else
      var last := trip[|trip| - 1];
      UsedPrices(trip[..|trip| - 1], used) + (if last.id in used then Selection.PlacePrice(last) else 0)
  }

  /** The total is additive over the trip. */
  lemma {:induction false} UsedPricesAppend(a: seq<Place>, b: seq<Place>, used: seq<string>)
    ensures UsedPrices(a + b, used) == UsedPrices(a, used) + UsedPrices(b, used)
    decreases |b|
  {
    if b != [] {
      var b' := b[..|b| - 1];
      assert (a + b)[..|a + b| - 1] == a + b';
      assert (a + b)[|a + b| - 1] == b[|b| - 1];
      var x := b[|b| - 1];
      assert UsedPrices(a + b, used) == UsedPrices(a + b', used) + (if x.id in used then Selection.PlacePrice(x) else 0);
      UsedPricesAppend(a, b', used);
    } else {
      assert a + b == a;
    }
  }

  /** Places not used add nothing; when every place was used, each adds its price. */
  lemma {:induction false} UsedPricesExtremes(trip: seq<Place>, used: seq<string>)
    ensures (forall i :: 0 <= i < |trip| ==> trip[i].id !in used) ==> UsedPrices(trip, used) == 0
    ensures (forall i :: 0 <= i < |trip| ==> trip[i].id in used) ==>
              UsedPrices(trip, used) == UsedPrices(trip, Ids(trip))
    decreases |trip|
  {
    if trip != [] {
      var t := trip[..|trip| - 1];
      UsedPricesExtremes(t, used);
      if forall i :: 0 <= i < |trip| ==> trip[i].id in used {
        assert forall i :: 0 <= i < |t| ==> t[i].id in used;
        UsedPricesIds(t, trip);
        assert trip[|trip| - 1].id == Ids(trip)[|trip| - 1];
      }
      if forall i :: 0 <= i < |trip| ==> trip[i].id !in used {
        assert forall i :: 0 <= i < |t| ==> t[i].id !in used;
      }
    }
  }

  /** Over a prefix of `trip`, counting the ids of the whole trip counts every place of the prefix. */
  lemma {:induction false} UsedPricesIds(t: seq<Place>, trip: seq<Place>)
    requires |t| <= |trip| && t == trip[..|t|]
    ensures UsedPrices(t, Ids(trip)) == UsedPrices(t, Ids(t))
    decreases |t|
  {
    if t != [] {
      var s := t[..|t| - 1];
      assert s == trip[..|s|];
      assert s == t[..|s|];
      UsedPricesIds(s, trip);
      UsedPricesIds(s, t);
      assert t[|t| - 1].id == Ids(trip)[|t| - 1];
      assert t[|t| - 1].id == Ids(t)[|t| - 1];
    }
  }

  /** The `destinationsForTrip.forEach` loop over the used destinations. */
  method SumUsedPrices(trip: seq<Place>, used: seq<string>) returns (low: int, high10: int)
    ensures low == UsedPrices(trip, used)
    ensures high10 == 12 * low
  {
    low, high10 := 0, 0;
    for i := 0 to |trip|
      invariant low == UsedPrices(trip[..i], used)
      invariant high10 == 12 * low
    {
      assert trip[..i + 1][..i] == trip[..i];
      if trip[i].id in used {
        var price := Selection.PlacePrice(trip[i]);
        low := low + price;
        high10 := high10 + 12 * price;
      }
    }
    assert trip[..|trip|] == trip;
  }

  // ---------------------------------------------------------------------------
  // Area changes

  /** How many items lie in another area than the item before them. */
  function AreaChanges(items: seq<Item>): nat
  {
    if |items| <= 1 then 0
    else AreaChanges(items[..|items| - 1]) + (if items[|items| - 1].area != items[|items| - 2].area then 1 else 0)
  }

  /** There are at most as many changes as legs, and none exactly when every item is in the first item's area. */
  lemma {:induction false} AreaChangesBounds(items: seq<Item>)
    ensures items != [] ==> AreaChanges(items) <= |items| - 1
    ensures AreaChanges(items) == 0 <==> forall i :: 0 <= i < |items| ==> items[i].area == items[0].area
    decreases |items|
  {
    if |items| > 1 {
      var t := items[..|items| - 1];
      AreaChangesBounds(t);
      if forall i :: 0 <= i < |items| ==> items[i].area == items[0].area {
        forall i | 0 <= i < |t|
          ensures t[i].area == t[0].area
        {
          assert t[i] == items[i];
        }
        assert items[|items| - 1].area == items[|items| - 2].area;
      }
      if AreaChanges(items) == 0 {
        assert items[|items| - 1].area == t[|t| - 1].area;
      }
    }
  }

  /** The `for` loop counting area changes. */
  method CountAreaChanges(items: seq<Item>) returns (changes: nat)
    ensures changes == AreaChanges(items)
  {
    changes := 0;
    if |items| == 0 {
      return;
    }
    var i := 1;
    while i < |items|
      invariant 1 <= i <= |items|
      invariant changes == AreaChanges(items[..i])
    {
      assert items[..i + 1][..i] == items[..i];
      if items[i].area != items[i - 1].area {
        changes := changes + 1;
      }
      i := i + 1;
    }
    assert items[..i] == items;
  }

  // ---------------------------------------------------------------------------
  // Transport and meals

  /** A low and a high estimate in rupiah. */
  datatype Band = Band(low: int, high: int)

  function Max(a: int, b: int): int
  {
    if a < b then b else a
  }

  /**
   * The transport cost: fuel, parking per used destination and area
   * changes for private transport; per leg (at least two) and per change for
   * public transport and ride-sharing; a base and per change otherwise.
   */
  function TransportCost(transport: string, changes: nat, trips: nat, usedCount: nat): (b: Band)
    ensures 10000 <= b.low < b.high
  {
    if transport == "private" then
      Band(15000 + changes * 15000 + 10000 * Max(1, usedCount), 30000 + changes * 25000 + 15000 * Max(1, usedCount))
    else if transport == "public" then
      Band(5000 * Max(2, trips) + changes * 8000, 10000 * Max(2, trips) + changes * 15000)
    else if transport == "ride-sharing" then
      Band(20000 * Max(2, trips) + changes * 25000, 35000 * Max(2, trips) + changes * 40000)
    else
      Band(15000 + changes * 10000, 35000 + changes * 20000)
  }

  /** `tripCount`: the larger of the legs and the changes, which is always the number of legs. */
  lemma TripCountIsLegs(items: seq<Item>)
    requires items != []
    ensures Max(|items| - 1, AreaChanges(items)) == |items| - 1
  {
    AreaChangesBounds(items);
  }

  /** An item whose activity names the meal and no place (`includes(word) && !includes('-')`). */
  function PlainMeal(word: string): Item -> bool
  {
    (it: Item) => Contains(it.activity, word) && !Contains(it.activity, "-")
  }

  /** An item whose activity mentions the word. */
  function Mentions(word: string): Item -> bool
  {
    (it: Item) => Contains(it.activity, word)
  }

  /** How many breakfasts, lunches and dinners without a place, and how many snacks the day holds. */
  datatype MealCounts = MealCounts(breakfasts: nat, lunches: nat, dinners: nat, coffees: nat)

  function CountMeals(items: seq<Item>): (c: MealCounts)
    ensures c.breakfasts <= |items| && c.lunches <= |items| && c.dinners <= |items| && c.coffees <= |items|
  {
    MealCounts(|Filter(items, PlainMeal("Sarapan"))|, |Filter(items, PlainMeal("Istirahat Makan"))|,
               |Filter(items, PlainMeal("Makan Malam"))|, |Filter(items, Mentions("Istirahat Jajan"))|)
  }

  /** Per-meal prices: breakfast, lunch, dinner and a snack. */
  datatype MealPrices = MealPrices(breakfast: nat, lunch: nat, dinner: nat, coffee: nat)

  /** The meal tables for local, international and (any other answer) both kinds of food. */
  function MealTable(mealPreference: string): (t: (MealPrices, MealPrices))
    ensures t.0.breakfast < t.1.breakfast && t.0.lunch < t.1.lunch && t.0.dinner < t.1.dinner && t.0.coffee < t.1.coffee
  {
    if mealPreference == "local" then (MealPrices(15000, 25000, 35000, 10000), MealPrices(25000, 35000, 50000, 15000))
    else if mealPreference == "international" then (MealPrices(25000, 40000, 60000, 15000), MealPrices(40000, 60000, 80000, 25000))
    else (MealPrices(20000, 30000, 45000, 12000), MealPrices(30000, 45000, 65000, 20000))
  }

  /** The allowance for the counted meals at one table; lunch and dinner are always paid at least once. */
  function MealAllowance(p: MealPrices, c: MealCounts): nat
  {
    p.breakfast * c.breakfasts + p.lunch * Max(1, c.lunches) + p.dinner * Max(1, c.dinners) + p.coffee * c.coffees
  }

  /** The meal cost, low and high. */
  function MealCost(mealPreference: string, c: MealCounts): (b: Band)
    ensures b.low >= MealTable(mealPreference).0.lunch + MealTable(mealPreference).0.dinner
    ensures b.low < b.high
  {
    var t := MealTable(mealPreference);
    Band(MealAllowance(t.0, c), MealAllowance(t.1, c))
  }

  // ---------------------------------------------------------------------------
  // The estimate

  /**
   * The estimate from the summed prices of the used destinations and the
   * transport and meal bands: at least 150 000 before the incidentals, a high
   * end of at least 1.1 times the low end (raised to 1.2 times when it falls
   * short), then 20 000 and 50 000 of incidentals. The high end is in tenths.
   */
  function Estimate(prices: int, transport: Band, meals: Band): (r: (int, int))
  {
    var low := prices + transport.low + meals.low;
    var high10 := 12 * prices + 10 * (transport.high + meals.high);
    var low1 := if low < 150000 then 150000 else low;
    var high1 := if high10 < 11 * low1 then 12 * low1 else high10;
    (low1 + 20000, high1 + 500000)
  }

  /**
   * The estimate is at least 170 000, the high end lies at least 45 000
   * above the low end, and at least 1.1 times the floored low end plus the
   * incidentals.
   */
  lemma EstimateBounds(prices: int, transport: Band, meals: Band)
    ensures var (low, high10) := Estimate(prices, transport, meals);
            && low >= 170000
            && high10 >= 11 * (low - 20000) + 500000
            && RoundTenths(high10) >= low + 45000
  {
  }

  /** Below the floor, the estimate is exactly 170 000 to 230 000. */
  lemma EstimateFloor(prices: int, transport: Band, meals: Band)
    requires prices + transport.low + meals.low < 150000
    requires 12 * prices + 10 * (transport.high + meals.high) < 1650000
    ensures Estimate(prices, transport, meals) == (170000, 2300000)
    ensures RoundTenths(2300000) == 230000
  {
  }

  /** The whole estimate of a rundown. */
  function BudgetEstimate(trip: seq<Place>, used: seq<string>, items: seq<Item>,
                          transport: string, mealPreference: string): (r: (int, int))
    ensures r.0 >= 170000 && r.1 >= r.0 + 45000
  {
    var changes := AreaChanges(items);
    var trips := Max(|items| - 1, changes);
    var t := TransportCost(transport, changes, if trips < 0 then 0 else trips, |used|);
    var (low, high10) := Estimate(UsedPrices(trip, used), t, MealCost(mealPreference, CountMeals(items)));
    EstimateBounds(UsedPrices(trip, used), t, MealCost(mealPreference, CountMeals(items)));
    (low, RoundTenths(high10))
  }

  /** The estimate computed with the two loops, and its text. */
  method EstimateBudget(trip: seq<Place>, used: seq<string>, items: seq<Item>,
                        transport: string, mealPreference: string) returns (text: string)
    ensures text == BudgetText(BudgetEstimate(trip, used, items, transport, mealPreference).0,
                               BudgetEstimate(trip, used, items, transport, mealPreference).1)
  {
    var low, high10 := SumUsedPrices(trip, used);
    var changes := CountAreaChanges(items);
    var trips := Max(|items| - 1, changes);
    var t := TransportCost(transport, changes, if trips < 0 then 0 else trips, |used|);
    var m := MealCost(mealPreference, CountMeals(items));
    var (l, h) := Estimate(low, t, m);
    text := BudgetText(l, RoundTenths(h));
  }
}
