/**
 * The "Add to Trip" button of a destination: the item it writes to the
 * stored trip list, adding and removing that item, and the button's
 * added / feedback / loading flags.
 */
module AddToTrip {
  import opened JsValues
  import opened Lists
  import opened Records
  import opened Prices
  import YourTrip

  /** `destination.id || destination.key`: the id the trip list knows the destination by. */
  function DestId(dest: Obj): Value
  {
    Or(Get(dest, Id), Get(dest, Key))
  }

  /** `getCategoryEmoji`: a `switch` on the exact category; anything else gets the pin. */
  function Emoji(category: Value): (r: string)
    ensures category.VNone? || category.VNum? ==> r == "\U{1F4CD}"
  {
    if category == VStr("Kuliner") then "\U{1F35C}"
    else if category == VStr("Rekreasi") then "\U{1F3A1}"
    else if category == VStr("Sejarah") then "\U{1F3DB}"
    else if category == VStr("Belanja") then "\U{1F6CD}"
    else if category == VStr("Edukasi") then "\U{1F4DA}"
    else if category == VStr("Alam") then "\U{1F333}"
    else if category == VStr("Cafe") then "\U{2615}"
    else if category == VStr("Venue") then "\U{1F3DE}"
    else "\U{1F4CD}"
  }

  /** The price text of the item: `Rp <price>` when the destination has a price, else `Free`. */
  function PriceLabel(price: Value): (r: string)
    ensures Truthy(price) <==> r != "Free"
  {
    if Truthy(price) then
      var t := "Rp " + ValueString(price);
      assert t[0] == 'R';
      t
    else "Free"
  }

  /**
   * The `tripItem` written to the trip list: the destination's id, a label
   * made of emoji, category and name, the price text, and the category,
   * location, opening hours and indoor/outdoor fields copied over.
   */
  function TripItem(dest: Obj): (r: Obj)
    ensures Get(r, Id) == DestId(dest)
    ensures Get(r, Label) == VStr(Emoji(Get(dest, Category)) + " " + ValueString(Get(dest, Category))
                                  + " - " + ValueString(Get(dest, Name)))
    ensures Get(r, Price) == VStr(PriceLabel(Get(dest, Price)))
    ensures forall k :: k in {Category, Location, OperatingHours, IndoorOutdoor} ==> Get(r, k) == Get(dest, k)
    ensures forall k :: k in r ==> k in {Id, Label, Price, Category, Location, OperatingHours, IndoorOutdoor}
  {
    map[Id := DestId(dest),
        Label := VStr(Emoji(Get(dest, Category)) + " " + ValueString(Get(dest, Category)) + " - " + ValueString(Get(dest, Name))),
        Price := VStr(PriceLabel(Get(dest, Price))),
        Category := Get(dest, Category),
        Location := Get(dest, Location),
        OperatingHours := Get(dest, OperatingHours),
        IndoorOutdoor := Get(dest, IndoorOutdoor)]
  }

  /**
   * The item's price text is what the trip popup budgets it at: the
   * destination's price for a positive number or a string, 0 for `Free`.
   */
  lemma TripItemBudget(dest: Obj)
    ensures Get(dest, Price).VNum? && Get(dest, Price).n > 0 ==>
              YourTrip.TripPrice(Entry(TripItem(dest), None)) == Some(Get(dest, Price).n)
    ensures Get(dest, Price).VStr? ==>
              YourTrip.TripPrice(Entry(TripItem(dest), None)) == Some(ParsePrice(Get(dest, Price)))
    ensures !Truthy(Get(dest, Price)) ==> YourTrip.TripPrice(Entry(TripItem(dest), None)) == Some(0)
  {
    var e := Entry(TripItem(dest), None);
    var p := Get(dest, Price);
    if Truthy(p) {
      YourTrip.TripPriceDigits(e);
      var text := ValueString(p);
      DigitsAppend("Rp ", text);
      assert Digits("Rp ") == [];
      assert Digits("Rp " + text) == Digits(text);
      if p.VNum? && p.n > 0 {
        ParsePriceRupiah(p.n);
      }
    } else {
      assert Get(e.fields, Price) == VStr("Free");
      assert Digits("Free") == [];
    }
  }

  /** Some item of the list has the id. */
  predicate Listed(trip: seq<Obj>, id: Value)
  {
    exists i :: 0 <= i < |trip| && Get(trip[i], Id) == id
  }

  function NotId(id: Value): Obj -> bool
  {
    (item: Obj) => Get(item, Id) != id
  }

  /** The stored list after adding the destination: its item appended, unless one with its id is there. */
  function Added(stored: Option<seq<Obj>>, dest: Obj): (r: seq<Obj>)
    ensures Listed(r, DestId(dest))
    ensures stored.Some? && Listed(stored.value, DestId(dest)) ==> r == stored.value
    ensures !(stored.Some? && Listed(stored.value, DestId(dest))) ==>
              r == (if stored.Some? then stored.value else []) + [TripItem(dest)]
  {
    var trip := if stored.Some? then stored.value else [];
    if Listed(trip, DestId(dest)) then trip
    else
      var r := trip + [TripItem(dest)];
      assert Get(r[|trip|], Id) == DestId(dest);
      r
  }

  /** The stored list after removing the destination: every item with its id dropped. */
  function Removed(trip: seq<Obj>, dest: Obj): (r: seq<Obj>)
    ensures !Listed(r, DestId(dest))
    ensures forall x :: x in r <==> x in trip && Get(x, Id) != DestId(dest)
  {
    var r := Filter(trip, NotId(DestId(dest)));
    FilterMembers(trip, NotId(DestId(dest)));
    assert forall i :: 0 <= i < |r| ==> NotId(DestId(dest))(r[i]);
    r
  }

  /** Adding a destination the list does not have and removing it again gives the list back. */
  lemma AddThenRemove(trip: seq<Obj>, dest: Obj)
    requires !Listed(trip, DestId(dest))
    ensures Removed(Added(Some(trip), dest), dest) == trip
  {
    var f := NotId(DestId(dest));
    FilterAppend(trip, [TripItem(dest)], f);
    FilterAll(trip, f);
    assert Filter([TripItem(dest)], f) == [];
  }

  /** Removing leaves every item of another id, in order and as often as it was there. */
  lemma RemoveKeepsOthers(trip: seq<Obj>, dest: Obj)
    ensures forall x :: Get(x, Id) != DestId(dest) ==> multiset(Removed(trip, dest))[x] == multiset(trip)[x]
  {
    forall x | Get(x, Id) != DestId(dest) {
      FilterCount(trip, NotId(DestId(dest)), x);
    }
  }

  /** The button, with the two `localStorage` entries it touches (`yourTrip`, `generatedRundown`). */
  class TripButton {
    const destination: Obj
    var isAdded: bool
    var showFeedback: bool
    var isLoading: bool
    var storedTrip: Option<seq<Obj>>
    var rundownStored: bool

    constructor(dest: Obj, trip: Option<seq<Obj>>, rundown: bool)
      ensures destination == dest && !isAdded && !showFeedback && !isLoading
      ensures storedTrip == trip && rundownStored == rundown
    {
      destination := dest;
      isAdded := false;
      showFeedback := false;
      isLoading := false;
      storedTrip := trip;
      rundownStored := rundown;
    }

    /** `checkIfAdded`: added exactly when the stored list has an item with the destination's id. */
    method CheckIfAdded()
      modifies this
      ensures isAdded <==> storedTrip.Some? && Listed(storedTrip.value, DestId(destination))
      ensures showFeedback == old(showFeedback) && isLoading == old(isLoading)
      ensures storedTrip == old(storedTrip) && rundownStored == old(rundownStored)
    {
      isAdded := storedTrip.Some? && Listed(storedTrip.value, DestId(destination));
    }

    /**
     * `handleAddToTrip`: a button already showing "added" only shows its
     * feedback; a list that already has the id only marks the button
     * added; otherwise the item is appended, the button is added and the
     * stored rundown, now out of date, is dropped.
     */
    method AddToTrip()
      modifies this
      ensures showFeedback && !isLoading
      ensures old(isAdded) ==> isAdded && storedTrip == old(storedTrip) && rundownStored == old(rundownStored)
      ensures !old(isAdded) ==> isAdded && storedTrip == Some(Added(old(storedTrip), destination))
      ensures !old(isAdded) && old(storedTrip).Some? && Listed(old(storedTrip).value, DestId(destination)) ==>
                rundownStored == old(rundownStored)
      ensures !old(isAdded) && !(old(storedTrip).Some? && Listed(old(storedTrip).value, DestId(destination))) ==>
                !rundownStored
    {
      isLoading := true;
      if isAdded {
        showFeedback := true;
        isLoading := false;
        return;
      }
      var trip := if storedTrip.Some? then storedTrip.value else [];
      if storedTrip.Some? && Listed(trip, DestId(destination)) {
        isAdded := true;
        showFeedback := true;
        isLoading := false;
        return;
      }
      storedTrip := Some(trip + [TripItem(destination)]);
      isAdded := true;
      showFeedback := true;
      isLoading := false;
      rundownStored := false;
    }

    /**
     * `handleRemoveFromTrip`: with a stored list, every item with the id is
     * dropped, the button is no longer added, the feedback shows and the
     * stored rundown is dropped. Without one nothing is done, and the
     * loading flag it set first stays on.
     */
    method RemoveFromTrip()
      modifies this
      ensures old(storedTrip).Some? ==>
                && storedTrip == Some(Removed(old(storedTrip).value, destination))
                && !isAdded && !isLoading && showFeedback && !rundownStored
      ensures old(storedTrip).None? ==>
                && isLoading && storedTrip.None? && isAdded == old(isAdded)
                && showFeedback == old(showFeedback) && rundownStored == old(rundownStored)
    {
      isLoading := true;
      if storedTrip.Some? {
        storedTrip := Some(Removed(storedTrip.value, destination));
        isAdded := false;
        isLoading := false;
        showFeedback := true;
        rundownStored := false;
      }
    }

    /** The timer set with the feedback: three seconds later it hides again. */
    method FeedbackTimeout()
      modifies this
      ensures !showFeedback
      ensures isAdded == old(isAdded) && isLoading == old(isLoading)
      ensures storedTrip == old(storedTrip) && rundownStored == old(rundownStored)
    {
      showFeedback := false;
    }
  }
}
