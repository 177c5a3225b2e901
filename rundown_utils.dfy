/**
 * The checks and reshaping a rundown goes through before it is stored:
 * `validateRundownData` (one error per problem, `isValid` when there is
 * none), `formatRundownForStorage` (numbered items with their fields
 * defaulted) and `calculateTotalCost` (the numeric costs added up).
 */
module RundownUtils {
  import opened JsValues
  import opened Lists
  import opened Records

  /**
   * A rundown's `itinerary` field: a falsy value (missing, null, ""), an
   * array of item objects, or another truthy value that is not an array
   * and has no `length` (an object, a number).
   */
  datatype ItineraryField = Falsy | List(items: seq<Obj>) | Other

  /**
   * A rundown as the generator or the save dialog hands it over: its plain
   * fields, its itinerary, its `tags` array, and
   * `tripDetails?.preferences?.duration`.
   */
  datatype RawRundown = RawRundown(fields: Obj, itinerary: ItineraryField, tags: Option<seq<string>>, preferredDuration: Value)

  /** The items the formatter maps over: `(itinerary || [])` when that is an array. */
  function ItemsOf(f: ItineraryField): seq<Obj>
  {
    if f.List? then f.items else []
  }

  // ---------------------------------------------------------------------------
  // validateRundownData

  const DataRequired: string := "Rundown data is required"
  const NotAnArray: string := "Itinerary must be an array"
  const EmptyItinerary: string := "Itinerary cannot be empty"

  function MissingName(n: nat): string
  {
    "Destination name is required for item " + NatToString(n)
  }

  predicate Named(item: Obj)
  {
    Truthy(Get(item, Activity))
  }

  /** The per-item errors, in item order, for a non-empty itinerary. */
  function ItemErrors(items: seq<Obj>): (r: seq<string>)
    ensures |r| <= |items|
  {
    if items == [] then []
    else ItemErrors(items[..|items| - 1]) + (if Named(items[|items| - 1]) then [] else [MissingName(|items|)])
  }

  /** The error list `validateRundownData` returns. */
  function ValidationErrors(data: Option<RawRundown>): (r: seq<string>)
    ensures data.None? ==> r == [DataRequired]
    ensures r == [] ==> data.Some? && data.value.itinerary.List? && data.value.itinerary.items != []
  {
    if data.None? then [DataRequired]
    else match data.value.itinerary
      case Falsy => [NotAnArray]
      case Other => [NotAnArray]
      case List(items) => if items == [] then [EmptyItinerary] else ItemErrors(items)
  }

  /** `validateRundownData`: the errors pushed one by one, and `isValid` when none was. */
  method Validate(data: Option<RawRundown>) returns (isValid: bool, errors: seq<string>)
    ensures errors == ValidationErrors(data)
    ensures isValid <==> errors == []
  {
    errors := [];
    if data.None? {
      errors := errors + [DataRequired];
      return false, errors;
    }
    var raw := data.value;
    if !raw.itinerary.List? {
      errors := errors + [NotAnArray];
    }
    if raw.itinerary.List? && raw.itinerary.items == [] {
      errors := errors + [EmptyItinerary];
    }
    if raw.itinerary.List? && raw.itinerary.items != [] {
      var items := raw.itinerary.items;
      var i := 0;
      while i < |items|
        invariant 0 <= i <= |items|
        invariant errors == ItemErrors(items[..i])
      {
        if !Named(items[i]) {
          errors := errors + [MissingName(i + 1)];
        }
        assert items[..i + 1][..i] == items[..i];
        i := i + 1;
      }
      assert items[..|items|] == items;
    }
    isValid := |errors| == 0;
  }

  /** Missing data is reported by exactly one error. */
  lemma ValidateNull()
    ensures |ValidationErrors(None)| == 1
  {
  }

  /** Every per-item error names an item without `activity` by its 1-based position, and every such item is named. */
  lemma {:induction false} ItemErrorsCite(items: seq<Obj>)
    ensures forall k :: 0 <= k < |ItemErrors(items)| ==>
              exists i :: 0 <= i < |items| && !Named(items[i]) && ItemErrors(items)[k] == MissingName(i + 1)
    ensures forall i :: 0 <= i < |items| && !Named(items[i]) ==> MissingName(i + 1) in ItemErrors(items)
    decreases |items|
  {
    if items != [] {
      var init := items[..|items| - 1];
      ItemErrorsCite(init);
      var last := |items| - 1;
      var tail: seq<string> := if Named(items[last]) then [] else [MissingName(last + 1)];
      var r := ItemErrors(items);
      assert r == ItemErrors(init) + tail;
      forall k | 0 <= k < |r|
        ensures exists i :: 0 <= i < |items| && !Named(items[i]) && ItemErrors(items)[k] == MissingName(i + 1)
      {
        if k < |ItemErrors(init)| {
          var i :| 0 <= i < |init| && !Named(init[i]) && ItemErrors(init)[k] == MissingName(i + 1);
          assert items[i] == init[i];
          assert r[k] == ItemErrors(init)[k];
        } else {
          assert r[k] == MissingName(last + 1);
          assert !Named(items[last]);
        }
      }
      forall i | 0 <= i < |items| && !Named(items[i])
        ensures MissingName(i + 1) in r
      {
        if i < |init| {
          assert init[i] == items[i];
          assert MissingName(i + 1) in ItemErrors(init);
        } else {
          assert i == last && tail == [MissingName(i + 1)];
          assert r[|r| - 1] == MissingName(i + 1);
        }
      }
    } else {
      assert ItemErrors(items) == [];
    }
  }

  /** No per-item error exactly when every item has an `activity`. */
  lemma {:induction false} ItemErrorsEmpty(items: seq<Obj>)
    ensures ItemErrors(items) == [] <==> forall i :: 0 <= i < |items| ==> Named(items[i])
  {
    ItemErrorsCite(items);
    if ItemErrors(items) != [] {
      assert 0 <= 0 < |ItemErrors(items)|;
      var i :| 0 <= i < |items| && !Named(items[i]) && ItemErrors(items)[0] == MissingName(i + 1);
    }
  }

  /** A rundown is valid exactly when it has a non-empty itinerary array whose every item has an `activity`. */
  lemma ValidIff(data: Option<RawRundown>)
    ensures ValidationErrors(data) == [] <==>
              data.Some? && data.value.itinerary.List? && data.value.itinerary.items != []
              && forall i :: 0 <= i < |data.value.itinerary.items| ==> Named(data.value.itinerary.items[i])
  {
    if data.Some? && data.value.itinerary.List? && data.value.itinerary.items != [] {
      ItemErrorsEmpty(data.value.itinerary.items);
    }
  }

  // ---------------------------------------------------------------------------
  // formatRundownForStorage

  /** A rundown in the shape it is stored in. */
  datatype Stored = Stored(
    title: Value,
    description: Value,
    itinerary: seq<Obj>,
    budgetEstimation: Value,
    totalDestinations: nat,
    tags: seq<string>,
    tripType: Value,
    estimatedDuration: Value)

  /** Item `index` of the stored itinerary. */
  function StoreItem(item: Obj, index: nat): (r: Obj)
    ensures Get(r, Order) == VNum(index + 1)
    ensures Get(r, DestinationName) == FirstOf(item, [Activity, Name, DestinationName], VStr("Unknown Destination"))
  {
    map[
      Order := VNum(index + 1),
      DestinationName := FirstOf(item, [Activity, Name, DestinationName], VStr("Unknown Destination")),
      Location := Or(Get(item, Location), VStr("")),
      EstimatedCost := FirstOf(item, [EstimatedCost, Price], VNum(0)),
      Category := Or(Get(item, Category), VStr("wisata")),
      Notes := Or(Get(item, Notes), VStr("")),
      Price := Or(Get(item, Price), VNum(0))]
  }

  /**
   * `formatRundownForStorage`; `None` where the source throws, because an
   * itinerary that is neither falsy nor an array has no `map`.
   */
  function FormatForStorage(raw: RawRundown): (r: Option<Stored>)
    ensures r.None? <==> raw.itinerary.Other?
    ensures r.Some? ==> |r.value.itinerary| == r.value.totalDestinations == |ItemsOf(raw.itinerary)|
    ensures r.Some? ==> forall i :: 0 <= i < |r.value.itinerary| ==>
                          r.value.itinerary[i] == StoreItem(ItemsOf(raw.itinerary)[i], i)
    ensures r.Some? ==> Truthy(r.value.title) && Truthy(r.value.estimatedDuration) && Truthy(r.value.tripType)
  {
    if raw.itinerary.Other? then None
    else
      var f := raw.fields;
      var items := ItemsOf(raw.itinerary);
      FirstOfTruthy(f, [EstimatedDuration], Or(raw.preferredDuration, VStr("1 day")));
      Some(Stored(
        Or(Get(f, Title), VStr("My Jakarta Trip")),
        Or(Get(f, Description), VStr("")),
        seq(|items|, i requires 0 <= i < |items| => StoreItem(items[i], i)),
        Or(Get(f, BudgetEstimation), VStr("Belum dihitung")),
        |items|,
        if raw.tags.Some? then raw.tags.value else [],
        Or(Get(f, TripType), VStr("general")),
        FirstOf(f, [EstimatedDuration], Or(raw.preferredDuration, VStr("1 day")))))
  }

  /**
   * Stored items are numbered 1, 2, ... in order and always have a name:
   * the item's `activity`, `name` or `destinationName`, whichever is set
   * first, or "Unknown Destination".
   */
  lemma StoredItemsNamed(raw: RawRundown)
    requires !raw.itinerary.Other?
    ensures var s := FormatForStorage(raw).value.itinerary;
            forall i :: 0 <= i < |s| ==> Get(s[i], Order) == VNum(i + 1) && Truthy(Get(s[i], DestinationName))
  {
    var items := ItemsOf(raw.itinerary);
    forall i | 0 <= i < |items|
      ensures Truthy(Get(StoreItem(items[i], i), DestinationName))
    {
      FirstOfTruthy(items[i], [Activity, Name, DestinationName], VStr("Unknown Destination"));
    }
  }

  /**
   * Saving validates, then formats: a rundown that passes validation is
   * stored with at least one item, and each stored item carries the
   * original item's `activity` as its name.
   */
  lemma ValidatedIsStored(raw: RawRundown)
    requires ValidationErrors(Some(raw)) == []
    ensures FormatForStorage(raw).Some?
    ensures var s := FormatForStorage(raw).value;
            s.totalDestinations >= 1
            && forall i :: 0 <= i < |s.itinerary| ==> Get(s.itinerary[i], DestinationName) == Get(raw.itinerary.items[i], Activity)
  {
    ValidIff(Some(raw));
  }

  /** The stored duration is the rundown's own, else the preferred duration, else "1 day". */
  lemma StoredDuration(raw: RawRundown)
    requires !raw.itinerary.Other?
    ensures var d := FormatForStorage(raw).value.estimatedDuration;
            d == (if Truthy(Get(raw.fields, EstimatedDuration)) then Get(raw.fields, EstimatedDuration)
                  else if Truthy(raw.preferredDuration) then raw.preferredDuration
                  else VStr("1 day"))
  {
  }

  // ---------------------------------------------------------------------------
  // calculateTotalCost

  /** `typeof item.estimatedCost === 'number' ? item.estimatedCost : 0`. */
  function Cost(item: Obj): int
  {
    match Get(item, EstimatedCost)
    case VNum(n) => n
    case _ => 0
  }

  function HasNumericCost(): Obj -> bool
  {
    (item: Obj) => Get(item, EstimatedCost).VNum?
  }

  /** The `reduce` from the left over the items' costs. */
  function SumCosts(items: seq<Obj>): int
  {
    if items == [] then 0 else SumCosts(items[..|items| - 1]) + Cost(items[|items| - 1])
  }

  /** `calculateTotalCost`: 0 for anything that is not an array. */
  function TotalCost(itinerary: ItineraryField): (r: int)
    ensures !itinerary.List? ==> r == 0
  {
    if itinerary.List? then SumCosts(itinerary.items) else 0
  }

  /** The total of two runs of items is the sum of their totals. */
  lemma {:induction false} SumCostsAppend(a: seq<Obj>, b: seq<Obj>)
    ensures SumCosts(a + b) == SumCosts(a) + SumCosts(b)
    decreases |b|
  {
    if b == [] {
      assert a + b == a;
    } else {
      var b' := b[..|b| - 1];
      assert (a + b)[..|a + b| - 1] == a + b';
      SumCostsAppend(a, b');
    }
  }

  /** Items whose cost is not a number add nothing: the total is that of the numerically priced items alone. */
  lemma {:induction false} SumCostsNumbersOnly(items: seq<Obj>)
    ensures SumCosts(items) == SumCosts(Filter(items, HasNumericCost()))
    decreases |items|
  {
    if items != [] {
      var rest := items[1..];
      SumCostsNumbersOnly(rest);
      assert items == [items[0]] + rest;
      SumCostsAppend([items[0]], rest);
      var h := if HasNumericCost()(items[0]) then [items[0]] else [];
      SumCostsAppend(h, Filter(rest, HasNumericCost()));
      assert SumCosts([items[0]]) == Cost(items[0]);
    }
  }

  /** With no negative cost the total is never negative. */
  lemma {:induction false} SumCostsNonNegative(items: seq<Obj>)
    requires forall i :: 0 <= i < |items| ==> Cost(items[i]) >= 0
    ensures SumCosts(items) >= 0
    decreases |items|
  {
    if items != [] {
      SumCostsNonNegative(items[..|items| - 1]);
    }
  }
}
