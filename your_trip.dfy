/**
 * The trip popup: the list of chosen destinations, the rundown generated
 * for it and the flags that say whether that rundown is new or saved, the
 * popup's size, the prices carried into a generated rundown, and the
 * popup's own budget estimate.
 */
module YourTrip {
  import opened JsValues
  import opened Lists
  import opened Records
  import opened Prices

  // ---------------------------------------------------------------------------
  // Removing destinations

  function HasId(id: Value): Entry -> bool
  {
    (e: Entry) => Get(e.fields, Id) == id
  }

  function NotId(id: Value): Entry -> bool
  {
    (e: Entry) => Get(e.fields, Id) != id
  }

  /** `list.filter(dest => dest.id !== id)`. */
  function Without(list: seq<Entry>, id: Value): (r: seq<Entry>)
  {
    Filter(list, NotId(id))
  }

  /**
   * Removing an id drops every destination with that id and keeps each
   * other destination, as often as it occurs, in order.
   */
  lemma WithoutRemoves(list: seq<Entry>, id: Value)
    ensures forall i :: 0 <= i < |Without(list, id)| ==> Get(Without(list, id)[i].fields, Id) != id
    ensures forall e :: multiset(Without(list, id))[e] ==
                          if Get(e.fields, Id) == id then 0 else multiset(list)[e]
    ensures |Without(list, id)| <= |list|
  {
    forall e {
      FilterCount(list, NotId(id), e);
    }
  }

  /** Removing an id that no destination has leaves the list as it is. */
  lemma WithoutAbsent(list: seq<Entry>, id: Value)
    requires forall i :: 0 <= i < |list| ==> Get(list[i].fields, Id) != id
    ensures Without(list, id) == list
  {
    FilterAll(list, NotId(id));
  }

  // ---------------------------------------------------------------------------
  // Prices carried into a generated rundown

  /**
   * `Number(v).toLocaleString('id-ID')` of a whole number, of a string of
   * digits between white space, or of a blank string (which is 0).
   */
  function LocaleNumber(v: Value): string
  {
    match v
    case VNum(n) => FormatNumber(n)
    case VStr(s) => var t := Trim(s); if AllDigits(t) then FormatNumber(DigitsValue(t)) else "NaN"
    case VNone => "NaN"
  }

  /**
   * The price a matched destination lends an activity: its catalog price
   * as `Rp` and a localised number, else its own `price`, else `'-'`.
   */
  function LentPrice(dest: Entry): (v: Value)
    ensures Truthy(v)
  {
    var o := OriginalGet(dest, Price);
    if Truthy(o) then VStr("Rp " + LocaleNumber(o)) else Or(Get(dest.fields, Price), VStr("-"))
  }

  /** A catalog price lent to an activity reads back, digit by digit, as that price. */
  lemma LentPriceParses(dest: Entry, n: nat)
    requires OriginalGet(dest, Price) == VNum(n) && n != 0
    ensures ParsePrice(LentPrice(dest)) == n
  {
    var f := FormatNumber(n);
    assert LentPrice(dest) == VStr("Rp " + f);
    DigitsAppend("Rp ", f);
    assert Digits("Rp ") == [];
    assert Digits("Rp " + f) == Digits(f);
    FormatNumberDigits(n);
    assert DigitsValue(Digits(f)) == n;
  }

  /**
   * The price found for an activity: that of the first destination of the
   * list that `matches` pairs with the lower-cased activity, else `'-'`.
   * `matches` stands for the three name-matching strategies.
   */
  function MatchedPrice(activity: string, list: seq<Entry>, matches: (string, Entry) -> bool): (v: Value)
    ensures (forall i :: 0 <= i < |list| ==> !matches(activity, list[i])) ==> v == VStr("-")
    ensures forall i :: (0 <= i < |list| && matches(activity, list[i])
                         && forall j :: 0 <= j < i ==> !matches(activity, list[j])) ==> v == LentPrice(list[i])
  {
    var f := (d: Entry) => matches(activity, d);
    assert forall i :: (0 <= i < |list| && matches(activity, list[i])
                        && forall j :: 0 <= j < i ==> !matches(activity, list[j])) ==> Find(list, f) == Some(list[i]) by {
      forall i | 0 <= i < |list| && matches(activity, list[i]) && forall j :: 0 <= j < i ==> !matches(activity, list[j])
        ensures Find(list, f) == Some(list[i])
      {
        FindAt(list, f, i);
      }
    }
    match Find(list, f)
    case None => VStr("-")
    case Some(d) => LentPrice(d)
  }

  /**
   * The `for ... of` over the selected destinations that stops at the first
   * one a strategy matches, taking its price.
   */
  method FindPrice(activity: string, list: seq<Entry>, matches: (string, Entry) -> bool) returns (v: Value)
    ensures v == MatchedPrice(activity, list, matches)
  {
    v := VStr("-");
    var i := 0;
    while i < |list|
      invariant 0 <= i <= |list|
      invariant forall j :: 0 <= j < i ==> !matches(activity, list[j])
    {
      if matches(activity, list[i]) {
        v := LentPrice(list[i]);
        return;
      }
      i := i + 1;
    }
  }

  /** An item already priced (anything truthy but `'-'`) keeps its price. */
  predicate Priced(item: Obj)
  {
    Truthy(Get(item, Price)) && Get(item, Price) != VStr("-")
  }

  /**
   * One item of `handleGenerateRundown`'s map: a priced item as it is;
   * otherwise the item with the price matched for its activity. An item to
   * match whose `activity` is not a string makes `toLowerCase` throw: `None`.
   */
  function Enhance(item: Obj, list: seq<Entry>, matches: (string, Entry) -> bool): (r: Option<Obj>)
    ensures Priced(item) ==> r == Some(item)
    ensures !Priced(item) && Get(item, Activity).VStr? ==>
              r == Some(item[Price := MatchedPrice(ToLower(Get(item, Activity).s), list, matches)])
    ensures !Priced(item) && !Get(item, Activity).VStr? ==> r.None?
  {
    if Priced(item) then Some(item)
    else
      var a := Get(item, Activity);
      if a.VStr? then Some(item[Price := MatchedPrice(ToLower(a.s), list, matches)]) else None
  }

  /** The map over the whole itinerary: `None` when some item throws. */
  function EnhanceAll(items: seq<Obj>, list: seq<Entry>, matches: (string, Entry) -> bool): (r: Option<seq<Obj>>)
    ensures r.Some? <==> forall i :: 0 <= i < |items| ==> Enhance(items[i], list, matches).Some?
    ensures r.Some? ==> |r.value| == |items| && forall i :: 0 <= i < |items| ==> r.value[i] == Enhance(items[i], list, matches).value
  {
    if exists i :: 0 <= i < |items| && Enhance(items[i], list, matches).None? then None
    else Some(seq(|items|, i requires 0 <= i < |items| => Enhance(items[i], list, matches).value))
  }

  /**
   * The enhanced itinerary has the same length; a priced item is left as it
   * is; an item that no destination matches is priced `'-'`; only `price`
   * ever changes.
   */
  lemma EnhanceKeeps(items: seq<Obj>, list: seq<Entry>, matches: (string, Entry) -> bool)
    requires EnhanceAll(items, list, matches).Some?
    ensures var r := EnhanceAll(items, list, matches).value;
            && |r| == |items|
            && (forall i :: 0 <= i < |items| && Priced(items[i]) ==> r[i] == items[i])
            && (forall i :: (0 <= i < |items| && !Priced(items[i])
                             && forall j :: 0 <= j < |list| ==> !matches(ToLower(Get(items[i], Activity).s), list[j])) ==>
                  Get(r[i], Price) == VStr("-"))
            && (forall i, k :: 0 <= i < |items| && k != Price ==> Get(r[i], k) == Get(items[i], k))
  {
    var r := EnhanceAll(items, list, matches).value;
    forall i | 0 <= i < |items| && !Priced(items[i])
      ensures Get(items[i], Activity).VStr?
    {
      assert Enhance(items[i], list, matches).Some?;
    }
  }

  // ---------------------------------------------------------------------------
  // The popup's budget estimate

  /** The longest prefix of `s` made of decimal digits. */
  function LeadingDigits(s: string): (r: string)
    ensures |r| <= |s| && r == s[..|r|] && AllDigits(r)
    ensures |r| < |s| ==> !IsDigit(s[|r|])
  {
    if s != [] && IsDigit(s[0]) then [s[0]] + LeadingDigits(s[1..]) else []
  }

  /**
   * `parseInt(s, 10) || 0`: leading white space skipped, an optional sign,
   * then as many digits as there are; 0 when there is none.
   */
  function ParseIntText(s: string): int
  {
    var t := TrimStart(s);
    var negative := t != [] && t[0] == '-';
    var body := if t != [] && (t[0] == '-' || t[0] == '+') then t[1..] else t;
    var d := LeadingDigits(body);
    var n: int := if d == [] then 0 else DigitsValue(d);
    if negative then -n else n
  }

  /** `parseInt(v, 10) || 0` of a field value; a whole number reads as itself. */
  function ParseInt(v: Value): int
  {
    match v
    case VNone => 0
    case VNum(n) => n
    case VStr(s) => ParseIntText(s)
  }

  /** A string of digits reads as its value. */
  lemma ParseIntDigits(d: string)
    requires d != [] && AllDigits(d)
    ensures ParseInt(VStr(d)) == DigitsValue(d)
  {
    assert IsDigit(d[0]) && !IsJsSpace(d[0]);
    assert TrimStart(d) == d;
    assert d[0] != '-' && d[0] != '+';
    LeadingAll(d);
    assert ParseIntText(d) == DigitsValue(d);
  }

  lemma {:induction false} LeadingAll(d: string)
    requires AllDigits(d)
    ensures LeadingDigits(d) == d
    decreases |d|
  {
    if d != [] {
      LeadingAll(d[1..]);
    }
  }

  /** A price written `Rp ...` reads as 0: `parseInt` stops at the `R`. */
  lemma ParseIntRupiah(s: string)
    ensures ParseInt(VStr("Rp " + s)) == 0
  {
    var t := "Rp " + s;
    assert TrimStart(t) == t;
    assert LeadingDigits(t) == [];
  }

  /**
   * What a destination adds to the popup's budget:
   * `parseInt(original?.price || <digits of price>, 10) || 0`. A truthy
   * price that is a number has no `match`: `None`.
   */
  function TripPrice(dest: Entry): (r: Option<int>)
    ensures Truthy(OriginalGet(dest, Price)) ==> r == Some(ParseInt(OriginalGet(dest, Price)))
  {
    var o := OriginalGet(dest, Price);
    var p := Get(dest.fields, Price);
    if Truthy(o) then Some(ParseInt(o))
    else if !Truthy(p) then Some(0)
    else if p.VNum? then None
    else if Digits(p.s) != [] then Some(ParseInt(VStr(Digits(p.s))))
    else Some(0)
  }

  /** A destination without a catalog price and with a string price adds the value of the string's digits. */
  lemma TripPriceDigits(dest: Entry)
    requires !Truthy(OriginalGet(dest, Price)) && Get(dest.fields, Price).VStr?
    ensures TripPrice(dest) == Some(ParsePrice(Get(dest.fields, Price)))
  {
    var s := Get(dest.fields, Price).s;
    if Digits(s) != [] {
      ParseIntDigits(Digits(s));
    }
  }

  predicate Priceable(list: seq<Entry>)
  {
    forall i :: 0 <= i < |list| ==> TripPrice(list[i]).Some?
  }

  function TripPrices(list: seq<Entry>): (r: seq<int>)
    requires Priceable(list)
    ensures |r| == |list| && forall i :: 0 <= i < |list| ==> r[i] == TripPrice(list[i]).value
  {
    seq(|list|, i requires 0 <= i < |list| => TripPrice(list[i]).value)
  }

  /** `calculateBudgetEstimation`: the trip pages' range over the destinations' prices. */
  function TripBudget(list: seq<Entry>): Option<string>
  {
    if Priceable(list) then Some(RangeText(TripPrices(list))) else None
  }

  /**
   * The `forEach` adding up `totalLow` and `totalHigh` (in tenths), stopped
   * by a price that throws: `ok` is false exactly then.
   */
  method AddPrices(list: seq<Entry>) returns (ok: bool, low: int, high10: int)
    ensures ok <==> Priceable(list)
    ensures ok ==> low == Sum(TripPrices(list)) && high10 == 11 * low
  {
    low, high10 := 0, 0;
    for i := 0 to |list|
      invariant Priceable(list[..i])
      invariant low == Sum(TripPrices(list[..i])) && high10 == 11 * low
    {
      var p := TripPrice(list[i]);
      if p.None? {
        assert !Priceable(list);
        return false, low, high10;
      }
      TripPricesSnoc(list, i);
      low := low + p.value;
      high10 := high10 + 11 * p.value;
    }
    assert list[..|list|] == list;
    ok := true;
  }

  /** `calculateBudgetEstimation`: the totals, 10 000 more at the high end, formatted. */
  method EstimateBudget(list: seq<Entry>) returns (text: Option<string>)
    ensures text == TripBudget(list)
  {
    var ok, low, high10 := AddPrices(list);
    if !ok {
      return None;
    }
    high10 := high10 + 100000;
    text := Some(BudgetText(low, RoundTenths(high10)));
  }

  /** One more destination in the `forEach`. */
  lemma TripPricesSnoc(list: seq<Entry>, i: nat)
    requires i < |list| && Priceable(list[..i]) && TripPrice(list[i]).Some?
    ensures Priceable(list[..i + 1])
    ensures Sum(TripPrices(list[..i + 1])) == Sum(TripPrices(list[..i])) + TripPrice(list[i]).value
  {
    assert list[..i + 1][..i] == list[..i];
    var xs := TripPrices(list[..i + 1]);
    assert xs[..i] == TripPrices(list[..i]);
  }

  /**
   * With no negative price the estimate opens with the sum of the prices and
   * closes with 10 000 plus 1.1 times that sum, rounded.
   */
  lemma TripBudgetRange(list: seq<Entry>)
    requires Priceable(list)
    requires forall i :: 0 <= i < |list| ==> TripPrice(list[i]).value >= 0
    ensures var s := Sum(TripPrices(list));
            && TripBudget(list) == Some(BudgetText(s, HighEnd(s)))
            && PriceRun(TripBudget(list).value) == s
  {
    var xs := TripPrices(list);
    RangeTextLow(xs);
    RangeTextHigh(xs);
  }

  // ---------------------------------------------------------------------------
  // The popup's state

  datatype PopupSize = Normal | Large

  /** `size === "normal" ? "large" : "normal"`. */
  function Toggled(size: PopupSize): (r: PopupSize)
    ensures r != size
  {
    if size == Normal then Large else Normal
  }

  /** Toggling twice gives back the size. */
  lemma ToggledTwice(size: PopupSize)
    ensures Toggled(Toggled(size)) == size
  {
  }

  /** The rundown the popup keeps: title, itinerary and budget text. */
  datatype Rundown = Rundown(title: Value, itinerary: seq<Obj>, budgetEstimation: Value)

  /**
   * The parsed `generatedRundown` entry of `localStorage`, as the mount
   * effect reads it: an itinerary that is not an array is `None`.
   */
  datatype StoredRundown = StoredRundown(title: Value, itinerary: Option<seq<Obj>>, budgetEstimation: Value)

  /** What `JSON.stringify` of a popup rundown parses back to. */
  function Stored(r: Rundown): (s: StoredRundown)
    ensures s.itinerary == Some(r.itinerary)
    ensures s.title == r.title && s.budgetEstimation == r.budgetEstimation
  {
    StoredRundown(r.title, Some(r.itinerary), r.budgetEstimation)
  }

  /**
   * The `validatedRundown` of the mount effect: the default title, `[]` for
   * an itinerary that is not an array, and the estimate of `list` when the
   * stored budget is falsy.
   */
  function Restored(s: StoredRundown, list: seq<Entry>): (r: Option<Rundown>)
    ensures r.Some? ==> r.value.title == Or(s.title, VStr("Your Trip Rundown")) && Truthy(r.value.title)
    ensures r.Some? ==> r.value.itinerary == (if s.itinerary.Some? then s.itinerary.value else [])
    ensures Truthy(s.budgetEstimation) ==> r.Some? && r.value.budgetEstimation == s.budgetEstimation
    ensures !Truthy(s.budgetEstimation) ==>
              (r.Some? <==> TripBudget(list).Some?) && (r.Some? ==> r.value.budgetEstimation == VStr(TripBudget(list).value))
  {
    var budget := if Truthy(s.budgetEstimation) then Some(s.budgetEstimation)
                  else if TripBudget(list).Some? then Some(VStr(TripBudget(list).value))
                  else None;
    if budget.None? then None
    else Some(Rundown(Or(s.title, VStr("Your Trip Rundown")), if s.itinerary.Some? then s.itinerary.value else [], budget.value))
  }

  /** A rundown the popup stored reads back unchanged, once it has a title and a budget. */
  lemma RestoreStored(r: Rundown, list: seq<Entry>)
    requires Truthy(r.title) && Truthy(r.budgetEstimation)
    ensures Restored(Stored(r), list) == Some(r)
  {
  }

  /** The estimate of the empty list, which the mount effect's closure holds: `Rp 0 - 10.000/pax`. */
  lemma EmptyTripBudget()
    ensures TripBudget([]) == Some(BudgetText(0, 10000))
  {
    assert TripPrices([]) == [];
  }

  /** Every destination has a label and a price: the stored list is used as it is. */
  predicate Complete(list: seq<Entry>)
  {
    forall i :: 0 <= i < |list| ==> Truthy(Get(list[i].fields, Label)) && Truthy(Get(list[i].fields, Price))
  }

  /** The popup, with the two `localStorage` entries it writes (`yourTrip`, `generatedRundown`). */
  class Popup {
    var selected: seq<Entry>
    var rundown: Option<Rundown>
    var isSaved: bool
    var hasNewRundown: bool
    var showSaveModal: bool
    var saveError: Option<string>
    var popupSize: PopupSize
    var isOpen: bool
    var generatorOpen: bool
    var storedTrip: Option<seq<Entry>>
    var storedRundown: Option<StoredRundown>

    /** The state a fresh popup starts in, over what `localStorage` holds. */
    constructor(trip: Option<seq<Entry>>, saved: Option<StoredRundown>)
      ensures selected == [] && rundown.None? && !isSaved && !hasNewRundown && !showSaveModal
      ensures saveError.None? && popupSize == Normal && !isOpen && !generatorOpen
      ensures storedTrip == trip && storedRundown == saved
    {
      selected := [];
      rundown := None;
      isSaved := false;
      hasNewRundown := false;
      showSaveModal := false;
      saveError := None;
      popupSize := Normal;
      isOpen := false;
      generatorOpen := false;
      storedTrip := trip;
      storedRundown := saved;
    }

    /**
     * `loadSavedTrip`: a stored list whose destinations all have a label and
     * a price becomes the list; otherwise the catalog has to be read again,
     * which `needsFetch` reports.
     */
    method LoadSavedTrip() returns (needsFetch: bool)
      modifies this
      ensures storedTrip.Some? && Complete(storedTrip.value) ==> selected == storedTrip.value && !needsFetch
      ensures !(storedTrip.Some? && Complete(storedTrip.value)) ==> selected == old(selected)
      ensures needsFetch <==> storedTrip.Some? && !Complete(storedTrip.value)
      ensures rundown == old(rundown) && isSaved == old(isSaved) && hasNewRundown == old(hasNewRundown)
      ensures showSaveModal == old(showSaveModal) && saveError == old(saveError) && popupSize == old(popupSize)
      ensures isOpen == old(isOpen) && generatorOpen == old(generatorOpen) && storedTrip == old(storedTrip) && storedRundown == old(storedRundown)
    {
      needsFetch := false;
      if storedTrip.Some? {
        if Complete(storedTrip.value) {
          selected := storedTrip.value;
        } else {
          needsFetch := true;
        }
      }
    }

    /**
     * `removeDestination`: every destination with the id leaves the list,
     * which is stored; when the list had at most one destination the
     * rundown, its stored copy and the new-rundown badge go too.
     */
    method RemoveDestination(id: Value)
      modifies this
      ensures selected == Without(old(selected), id) && storedTrip == Some(selected)
      ensures |old(selected)| <= 1 ==> rundown.None? && storedRundown.None? && !hasNewRundown
      ensures |old(selected)| > 1 ==>
                rundown == old(rundown) && storedRundown == old(storedRundown) && hasNewRundown == old(hasNewRundown)
      ensures isSaved == old(isSaved) && showSaveModal == old(showSaveModal)
      ensures saveError == old(saveError) && popupSize == old(popupSize) && isOpen == old(isOpen) && generatorOpen == old(generatorOpen)
    {
      var before := selected;
      selected := Without(before, id);
      if |before| <= 1 {
        rundown := None;
        storedRundown := None;
        hasNewRundown := false;
      }
      storedTrip := Some(selected);
    }

    /** `clearTrip`: no destinations, no rundown, neither flag, nothing stored. */
    method ClearTrip()
      modifies this
      ensures selected == [] && rundown.None? && !isSaved && !hasNewRundown
      ensures storedTrip.None? && storedRundown.None?
      ensures showSaveModal == old(showSaveModal) && saveError == old(saveError) && popupSize == old(popupSize)
      ensures isOpen == old(isOpen) && generatorOpen == old(generatorOpen)
    {
      selected := [];
      rundown := None;
      isSaved := false;
      hasNewRundown := false;
      storedTrip := None;
      storedRundown := None;
    }

    /**
     * `handleGenerateRundown`: the generated rundown, its itinerary priced
     * from the list, titled and budgeted by default when it has no title or
     * budget, becomes the popup's and is stored; it is new and not saved.
     * `ok` is false when the map or the budget throws, and then nothing changes.
     */
    method GenerateRundown(generated: Rundown, matches: (string, Entry) -> bool) returns (ok: bool)
      modifies this
      ensures var items := EnhanceAll(generated.itinerary, old(selected), matches);
              var budget := if Truthy(generated.budgetEstimation) then Some(generated.budgetEstimation)
                            else if TripBudget(old(selected)).Some? then Some(VStr(TripBudget(old(selected)).value))
                            else None;
              && (ok <==> items.Some? && budget.Some?)
              && (ok ==> && rundown == Some(Rundown(Or(generated.title, VStr("Your Trip Rundown")), items.value, budget.value))
                         && storedRundown == Some(Stored(rundown.value)) && !isSaved && hasNewRundown)
              && (!ok ==> rundown == old(rundown) && storedRundown == old(storedRundown)
                          && isSaved == old(isSaved) && hasNewRundown == old(hasNewRundown))
      ensures selected == old(selected) && storedTrip == old(storedTrip)
      ensures showSaveModal == old(showSaveModal) && saveError == old(saveError) && popupSize == old(popupSize)
      ensures isOpen == old(isOpen) && generatorOpen == old(generatorOpen)
    {
      var items := EnhanceAll(generated.itinerary, selected, matches);
      if items.None? {
        return false;
      }
      var budget := generated.budgetEstimation;
      if !Truthy(budget) {
        var text := EstimateBudget(selected);
        if text.None? {
          return false;
        }
        budget := VStr(text.value);
      }
      var r := Rundown(Or(generated.title, VStr("Your Trip Rundown")), items.value, budget);
      rundown := Some(r);
      isSaved := false;
      hasNewRundown := true;
      storedRundown := Some(Stored(r));
      ok := true;
    }

    /** `handleSaveSuccess`: saved, no error, the save dialog closed, no badge, the stored rundown gone. */
    method SaveSuccess()
      modifies this
      ensures isSaved && saveError.None? && !showSaveModal && !hasNewRundown && storedRundown.None?
      ensures selected == old(selected) && rundown == old(rundown)
      ensures storedTrip == old(storedTrip) && popupSize == old(popupSize) && isOpen == old(isOpen) && generatorOpen == old(generatorOpen)
    {
      isSaved := true;
      saveError := None;
      showSaveModal := false;
      hasNewRundown := false;
      storedRundown := None;
    }

    /** `togglePopupSize`. */
    method TogglePopupSize()
      modifies this
      ensures popupSize == Toggled(old(popupSize))
      ensures selected == old(selected) && rundown == old(rundown) && isSaved == old(isSaved)
      ensures hasNewRundown == old(hasNewRundown) && showSaveModal == old(showSaveModal)
      ensures saveError == old(saveError) && storedTrip == old(storedTrip) && storedRundown == old(storedRundown)
      ensures isOpen == old(isOpen) && generatorOpen == old(generatorOpen)
    {
      popupSize := Toggled(popupSize);
    }

    /**
     * The mount effect reading `generatedRundown` back: a stored rundown
     * becomes the popup's, with the defaults of `Restored`. Its budget
     * default is estimated over `list`, the trip list of the render the
     * effect belongs to, which on mount is the initial empty list. `ok` is
     * false when that estimate throws, and then nothing changes.
     */
    method RestoreRundown(list: seq<Entry>) returns (ok: bool)
      modifies this
      ensures storedRundown.Some? ==> (ok <==> Restored(storedRundown.value, list).Some?)
      ensures ok ==> storedRundown.Some? && rundown == Restored(storedRundown.value, list)
      ensures !ok ==> rundown == old(rundown)
      ensures selected == old(selected) && isSaved == old(isSaved) && hasNewRundown == old(hasNewRundown)
      ensures showSaveModal == old(showSaveModal) && saveError == old(saveError) && popupSize == old(popupSize)
      ensures isOpen == old(isOpen) && generatorOpen == old(generatorOpen) && storedTrip == old(storedTrip) && storedRundown == old(storedRundown)
    {
      ok := false;
      if storedRundown.Some? {
        var s := storedRundown.value;
        var budget := s.budgetEstimation;
        if !Truthy(budget) {
          var text := EstimateBudget(list);
          if text.None? {
            return;
          }
          budget := VStr(text.value);
        }
        rundown := Some(Rundown(Or(s.title, VStr("Your Trip Rundown")), if s.itinerary.Some? then s.itinerary.value else [], budget));
        ok := true;
      }
    }

    /** The floating "Your trip" button: the popup opens or closes and the badge goes. */
    method TogglePopup()
      modifies this
      ensures isOpen == !old(isOpen) && !hasNewRundown
      ensures selected == old(selected) && rundown == old(rundown) && isSaved == old(isSaved)
      ensures showSaveModal == old(showSaveModal) && saveError == old(saveError) && popupSize == old(popupSize)
      ensures generatorOpen == old(generatorOpen) && storedTrip == old(storedTrip) && storedRundown == old(storedRundown)
    {
      isOpen := !isOpen;
      hasNewRundown := false;
    }

    /** The reset button of the rundown header: no rundown, not saved, no badge, nothing stored. */
    method ResetRundown()
      modifies this
      ensures rundown.None? && !isSaved && !hasNewRundown && storedRundown.None?
      ensures selected == old(selected) && showSaveModal == old(showSaveModal) && saveError == old(saveError)
      ensures popupSize == old(popupSize) && isOpen == old(isOpen) && generatorOpen == old(generatorOpen) && storedTrip == old(storedTrip)
    {
      rundown := None;
      isSaved := false;
      hasNewRundown := false;
      storedRundown := None;
    }

    /** The five-second timer of `handleSaveSuccess`: the saved mark goes and nothing else changes. */
    method SavedTimeout()
      modifies this
      ensures !isSaved
      ensures selected == old(selected) && rundown == old(rundown) && hasNewRundown == old(hasNewRundown)
      ensures showSaveModal == old(showSaveModal) && saveError == old(saveError) && popupSize == old(popupSize)
      ensures isOpen == old(isOpen) && generatorOpen == old(generatorOpen) && storedTrip == old(storedTrip) && storedRundown == old(storedRundown)
    {
      isSaved := false;
    }

    /** `openRundownGenerator` and `closeRundownGenerator`: only the generator's visibility changes. */
    method SetGeneratorOpen(open: bool)
      modifies this
      ensures generatorOpen == open
      ensures selected == old(selected) && rundown == old(rundown) && isSaved == old(isSaved)
      ensures hasNewRundown == old(hasNewRundown) && showSaveModal == old(showSaveModal) && saveError == old(saveError)
      ensures popupSize == old(popupSize) && isOpen == old(isOpen) && storedTrip == old(storedTrip) && storedRundown == old(storedRundown)
    {
      generatorOpen := open;
    }

    /**
     * The `rundownGenerated` listener: the event's rundown becomes the
     * popup's as it is, new and not saved; it is not stored.
     */
    method RundownGenerated(r: Rundown)
      modifies this
      ensures rundown == Some(r) && !isSaved && hasNewRundown
      ensures selected == old(selected) && showSaveModal == old(showSaveModal) && saveError == old(saveError)
      ensures popupSize == old(popupSize) && isOpen == old(isOpen) && generatorOpen == old(generatorOpen)
      ensures storedTrip == old(storedTrip) && storedRundown == old(storedRundown)
    {
      rundown := Some(r);
      isSaved := false;
      hasNewRundown := true;
    }

    /**
     * The `rundownSaved` listener, for a save made elsewhere: saved, no
     * error, no badge; unlike `SaveSuccess` the dialog and the stored
     * rundown are left alone.
     */
    method RundownSaved()
      modifies this
      ensures isSaved && saveError.None? && !hasNewRundown
      ensures selected == old(selected) && rundown == old(rundown) && showSaveModal == old(showSaveModal)
      ensures popupSize == old(popupSize) && isOpen == old(isOpen) && generatorOpen == old(generatorOpen)
      ensures storedTrip == old(storedTrip) && storedRundown == old(storedRundown)
    {
      isSaved := true;
      saveError := None;
      hasNewRundown := false;
    }

    /** `handleSaveError`: the error is kept and nothing else changes. */
    method SaveError(error: string)
      modifies this
      ensures saveError == Some(error)
      ensures selected == old(selected) && rundown == old(rundown) && isSaved == old(isSaved)
      ensures hasNewRundown == old(hasNewRundown) && showSaveModal == old(showSaveModal) && popupSize == old(popupSize)
      ensures isOpen == old(isOpen) && generatorOpen == old(generatorOpen) && storedTrip == old(storedTrip) && storedRundown == old(storedRundown)
    {
      saveError := Some(error);
    }
  }
}
