/**
 * The save dialog: the price each destination contributes to the budget,
 * the name, place and category shown for it, the manual rundown built
 * from the trip list, the form check, and the record `handleSave` stores.
 */
module SaveRundown {
  import opened JsValues
  import opened Lists
  import opened Records
  import opened Prices

  // ---------------------------------------------------------------------------
  // Prices

  /**
   * `(price && price.match && price.match(/\d+/)) ? price.replace(/\D/g, "") : 0`:
   * the digits of a string price that has one, else 0.
   */
  function StringDigits(v: Value): (r: Value)
    ensures v.VStr? && Digits(v.s) != [] ==> r == VStr(Digits(v.s))
    ensures !(v.VStr? && Digits(v.s) != []) ==> r == VNum(0)
  {
    if v.VStr? && Digits(v.s) != [] then VStr(Digits(v.s)) else VNum(0)
  }

  /** A string reduced to its digits parses to the same price. */
  lemma ParseDigits(s: string)
    ensures ParsePrice(VStr(Digits(s))) == ParsePrice(VStr(s))
  {
    DigitsOfDigits(Digits(s));
  }

  /**
   * The price the budget takes from a destination:
   * `original?.price || <digits of price> || estimatedCost || 0`, through `parsePrice`.
   */
  function BudgetPrice(d: Entry): (p: int)
    ensures Truthy(OriginalGet(d, Price)) ==> p == ParsePrice(OriginalGet(d, Price))
    ensures !Truthy(OriginalGet(d, Price)) && Get(d.fields, Price).VStr? && Digits(Get(d.fields, Price).s) != [] ==>
              p == ParsePrice(Get(d.fields, Price))
    ensures !Truthy(OriginalGet(d, Price)) && !(Get(d.fields, Price).VStr? && Digits(Get(d.fields, Price).s) != []) ==>
              p == ParsePrice(Get(d.fields, EstimatedCost))
  {
    var price := Get(d.fields, Price);
    var v := Or(OriginalGet(d, Price), Or(StringDigits(price), Or(Get(d.fields, EstimatedCost), VNum(0))));
    if price.VStr? then ParseDigits(price.s); ParsePrice(v) else ParsePrice(v)
  }

  /** `getDestinationPrice`: the budget's price with `cost` as a further fallback; 0 for no item. */
  function DestinationPrice(item: Option<Entry>): (p: int)
    ensures item.None? ==> p == 0
    ensures item.Some? && Truthy(OriginalGet(item.value, Price)) ==> p == BudgetPrice(item.value)
  {
    if item.None? then 0
    else
      var d := item.value;
      ParsePrice(Or(OriginalGet(d, Price), Or(StringDigits(Get(d.fields, Price)),
                 FirstOf(d.fields, [EstimatedCost, Cost], VNum(0)))))
  }

  function BudgetPrices(dests: seq<Entry>): (r: seq<int>)
    ensures |r| == |dests| && forall i :: 0 <= i < |dests| ==> r[i] == BudgetPrice(dests[i])
  {
    seq(|dests|, i requires 0 <= i < |dests| => BudgetPrice(dests[i]))
  }

  /** `calculateBudgetEstimation`: `"-"` unless it is given an array. */
  function EstimationText(dests: Option<seq<Entry>>): string
  {
    if dests.None? then "-" else RangeText(BudgetPrices(dests.value))
  }

  /** The budget computed with the `forEach` over the destinations. */
  method EstimateBudget(dests: Option<seq<Entry>>) returns (text: string)
    ensures text == EstimationText(dests)
    ensures dests.Some? ==> StartsWith(text, "Rp ")
  {
    if dests.None? {
      return "-";
    }
    var xs := BudgetPrices(dests.value);
    var low, high10 := AddUp(xs);
    text := BudgetText(low, RoundTenths(high10));
    BudgetTextOpens(low, RoundTenths(high10));
  }

  /** The text's high end is 10 000 plus 1.1 times the sum of the prices, rounded. */
  lemma BudgetEstimationRange(dests: seq<Entry>)
    ensures var s := Sum(BudgetPrices(dests));
            EstimationText(Some(dests)) == BudgetText(s, HighEnd(s))
  {
    RangeTextHigh(BudgetPrices(dests));
  }

  /** With no negative price, the text opens with the sum of the prices. */
  lemma BudgetEstimationLow(dests: seq<Entry>)
    requires forall i :: 0 <= i < |dests| ==> BudgetPrice(dests[i]) >= 0
    ensures PriceRun(EstimationText(Some(dests))) == Sum(BudgetPrices(dests))
  {
    var xs := BudgetPrices(dests);
    assert forall i :: 0 <= i < |xs| ==> xs[i] >= 0;
    RangeTextLow(xs);
  }

  // ---------------------------------------------------------------------------
  // Display name, place and category

  function IndexName(index: nat): string
  {
    "Destinasi " + NatToString(index + 1)
  }

  /** The offset of the first `" - "` in `s`, searching from `k`. */
  function SeparatorFrom(s: string, k: nat): (r: Option<nat>)
    ensures r.Some? ==> k <= r.value && OccursAt(s, " - ", r.value)
    ensures forall j :: k <= j && (r.None? || j < r.value) ==> !OccursAt(s, " - ", j)
    decreases |s| - k
  {
    if k + 3 > |s| then None
    else if s[k..k + 3] == " - " then Some(k)
    else SeparatorFrom(s, k + 1)
  }

  /** `label.split(" - ")` has more than one part: the label holds `" - "`, first at `r`. */
  function Separator(s: string): (r: Option<nat>)
    ensures r.Some? ==> OccursAt(s, " - ", r.value) && forall j :: 0 <= j < r.value ==> !OccursAt(s, " - ", j)
    ensures r.None? ==> forall j :: !OccursAt(s, " - ", j)
  {
    SeparatorFrom(s, 0)
  }

  /** A pictograph of the range `[\u{1F300}-\u{1F9FF}]`. */
  predicate IsPictograph(c: char)
  {
    '\U{1F300}' <= c <= '\U{1F9FF}'
  }

  /** The label without a leading pictograph and the white space after it. */
  function WithoutEmoji(s: string): string
  {
    if s != [] && IsPictograph(s[0]) then TrimStart(s[1..]) else s
  }

  /**
   * `.replace(/^[^-]-\s/, "")`: one character other than `-`, a dash and a
   * space are dropped. Without the `u` flag the first class matches one
   * UTF-16 unit, so a character outside the Basic Multilingual Plane there
   * never matches.
   */
  function WithoutCategory(s: string): string
  {
    if |s| >= 3 && s[0] != '-' && s[0] < '\U{10000}' && s[1] == '-' && IsJsSpace(s[2]) then s[3..] else s
  }

  /** The name taken from a string label. */
  function LabelName(caption: string): (r: string)
    ensures Separator(caption).Some? ==> r == caption[Separator(caption).value + 3..]
  {
    var sep := Separator(caption);
    if sep.Some? then caption[sep.value + 3..]
    else
      var w := WithoutCategory(WithoutEmoji(caption));
      if w != "" then w else caption
  }

  const NameKeys: seq<Field> := [Name, DestinationName, Title, PlaceName, Location]

  /**
   * A value `possibleNames.find` passes over without throwing: falsy, or a
   * string that is blank after trimming.
   */
  predicate Skipped(v: Value)
  {
    !Truthy(v) || (v.VStr? && Trim(v.s) == "")
  }

  /**
   * `possibleNames.find(name => name && name.trim() !== "") || "Destinasi n"`;
   * `None` where the source throws because a truthy number has no `trim`.
   */
  function NameFrom(o: Obj, keys: seq<Field>, index: nat): (r: Option<Value>)
    ensures r.Some? ==> r.value.VStr? && Trim(r.value.s) != ""
    decreases |keys|
  {
    if keys == [] then
      TrimEmptyIffBlank(IndexName(index));
      Some(VStr(IndexName(index)))
    else
      match Get(o, keys[0])
      case VNum(n) => if n != 0 then None else NameFrom(o, keys[1..], index)
      case VStr(s) => if Trim(s) != "" then Some(VStr(s)) else NameFrom(o, keys[1..], index)
      case VNone => NameFrom(o, keys[1..], index)
  }

  /** The name is the value of the first key holding a non-blank string, when only skipped values precede it. */
  lemma {:induction false} NameFromFirst(o: Obj, keys: seq<Field>, index: nat, i: nat)
    requires i < |keys| && Get(o, keys[i]).VStr? && Trim(Get(o, keys[i]).s) != ""
    requires forall j :: 0 <= j < i ==> Skipped(Get(o, keys[j]))
    ensures NameFrom(o, keys, index) == Some(Get(o, keys[i]))
    decreases i
  {
    if i > 0 {
      assert Skipped(Get(o, keys[0]));
      assert forall j :: 0 <= j < i - 1 ==> keys[1..][j] == keys[j + 1];
      NameFromFirst(o, keys[1..], index, i - 1);
    }
  }

  /** A truthy number reached before any non-blank string makes `trim` throw. */
  lemma {:induction false} NameFromThrows(o: Obj, keys: seq<Field>, index: nat, i: nat)
    requires i < |keys| && Get(o, keys[i]).VNum? && Get(o, keys[i]).n != 0
    requires forall j :: 0 <= j < i ==> Skipped(Get(o, keys[j]))
    ensures NameFrom(o, keys, index).None?
    decreases i
  {
    if i > 0 {
      assert Skipped(Get(o, keys[0]));
      assert forall j :: 0 <= j < i - 1 ==> keys[1..][j] == keys[j + 1];
      NameFromThrows(o, keys[1..], index, i - 1);
    }
  }

  /** With every possible name skipped, the item is named `Destinasi n` by its position. */
  lemma {:induction false} NameFromDefault(o: Obj, keys: seq<Field>, index: nat)
    requires forall j :: 0 <= j < |keys| ==> Skipped(Get(o, keys[j]))
    ensures NameFrom(o, keys, index) == Some(VStr(IndexName(index)))
    decreases |keys|
  {
    if keys != [] {
      assert Skipped(Get(o, keys[0]));
      assert forall j :: 0 <= j < |keys| - 1 ==> keys[1..][j] == keys[j + 1];
      NameFromDefault(o, keys[1..], index);
    }
  }

  /** `item.label && typeof item.label === "string"`. */
  predicate HasLabel(f: Obj)
  {
    Get(f, Label).VStr? && Get(f, Label).s != ""
  }

  /**
   * `getDestinationDisplayName(item, index)`; `None` where it throws. A
   * string label gives its part after the first `" - "`, else the label
   * without a leading pictograph and category letter; then the activity;
   * then the first non-blank name-like field; then `"Destinasi n"`.
   */
  function DisplayName(item: Option<Entry>, index: nat): (r: Option<Value>)
    ensures item.None? ==> r == Some(VStr(IndexName(index)))
    ensures item.Some? && HasLabel(item.value.fields) ==> r == Some(VStr(LabelName(Get(item.value.fields, Label).s)))
    ensures item.Some? && !HasLabel(item.value.fields) && Truthy(Get(item.value.fields, Activity)) ==>
              r == Some(Get(item.value.fields, Activity))
    ensures item.Some? && !HasLabel(item.value.fields) && !Truthy(Get(item.value.fields, Activity)) ==>
              r == NameFrom(item.value.fields, NameKeys, index)
  {
    if item.None? then Some(VStr(IndexName(index)))
    else
      var f := item.value.fields;
      var caption := Get(f, Label);
      if caption.VStr? && caption.s != "" then Some(VStr(LabelName(caption.s)))
      else if Truthy(Get(f, Activity)) then Some(Get(f, Activity))
      else NameFrom(f, NameKeys, index)
  }

  /**
   * The trip list's labels `"<emoji> <category> - <name>"`, whose emoji and
   * category hold no `-`, show the name.
   */
  lemma TripLabelName(item: Entry, index: nat, emoji: string, category: string, name: string)
    requires Get(item.fields, Label) == VStr(emoji + " " + category + " - " + name)
    requires forall c :: c in emoji + " " + category ==> c != '-'
    ensures DisplayName(Some(item), index) == Some(VStr(name))
  {
    var head := emoji + " " + category;
    var caption := head + " - " + name;
    var k := |head|;
    assert caption[k..k + 3] == " - ";
    forall j | 0 <= j < k
      ensures !OccursAt(caption, " - ", j)
    {
      if j + 1 < k {
        assert caption[j + 1] == head[j + 1];
        assert head[j + 1] in head;
      } else {
        assert caption[j + 1] == ' ';
      }
      assert caption[j..j + 3][1] == caption[j + 1];
    }
    assert OccursAt(caption, " - ", k);
    assert Separator(caption) == Some(k);
    assert caption[k + 3..] == name;
  }

  /** `getDestinationLocation`: the first of location, address, place, area, else "". */
  function DestinationLocation(item: Option<Entry>): (r: Value)
    ensures item.None? ==> r == VStr("")
    ensures item.Some? ==> r == FirstOf(item.value.fields, [Location, Address, Place, Area], VStr(""))
  {
    if item.None? then VStr("") else FirstOf(item.value.fields, [Location, Address, Place, Area], VStr(""))
  }

  /** `getDestinationCategory`: the first of category, type, categoryType, else "General". */
  function DestinationCategory(item: Option<Entry>): (r: Value)
    ensures Truthy(r)
    ensures item.None? ==> r == VStr("General")
    ensures (item.Some? && !Truthy(Get(item.value.fields, Category)) && !Truthy(Get(item.value.fields, Type))
             && !Truthy(Get(item.value.fields, CategoryType))) ==> r == VStr("General")
  {
    if item.None? then VStr("General")
    else
      FirstOfTruthy(item.value.fields, [Category, Type, CategoryType], VStr("General"));
      FirstOf(item.value.fields, [Category, Type, CategoryType], VStr("General"))
  }

  // ---------------------------------------------------------------------------
  // The rundown being saved

  /** The `itinerary` of the rundown in the dialog. */
  datatype ItineraryField = NoItinerary | Items(items: seq<Option<Entry>>) | NotArray

  /** The rundown in the dialog: its plain fields and its itinerary. */
  datatype Draft = Draft(fields: Obj, itinerary: ItineraryField)

  /** `(9 + 2·index).toString().padStart(2, '0') + ":00"`. */
  function DefaultTime(index: nat): string
  {
    var h := 9 + 2 * index;
    (if h < 10 then "0" else "") + NatToString(h) + ":00"
  }

  /** The fields the manual rundown computes for a destination named `name`. */
  function ManualFields(dest: Entry, index: nat, name: Value): (r: Obj)
    ensures Get(r, Activity) == name && Get(r, Order) == VNum(index + 1)
    ensures Get(r, Time) == VStr(DefaultTime(index))
  {
    map[][Time := VStr(DefaultTime(index))]
         [Activity := name]
         [Duration := VStr("2 jam")]
         [Notes := VStr("Kunjungi " + ValueString(name))]
         [Price := Or(Get(dest.fields, Price), VStr("Free"))]
         [Location := DestinationLocation(Some(dest))]
         [Category := DestinationCategory(Some(dest))]
         [EstimatedCost := VNum(DestinationPrice(Some(dest)))]
         [Order := VNum(index + 1)]
  }

  /**
   * One destination of the trip list as an item of the manual rundown:
   * the computed fields, then every field of the destination spread over
   * them; `None` where naming it throws.
   */
  function ManualItem(dest: Entry, index: nat): (r: Option<Entry>)
    ensures r.None? <==> DisplayName(Some(dest), index).None?
    ensures r.Some? ==> r.value.original == dest.original
                        && r.value.fields == ManualFields(dest, index, DisplayName(Some(dest), index).value) + dest.fields
  {
    var name := DisplayName(Some(dest), index);
    if name.None? then None
    else Some(Entry(ManualFields(dest, index, name.value) + dest.fields, dest.original))
  }

  /** The spread keeps every field of the destination as it is, and the computed ones it does not have. */
  lemma ManualItemSpread(dest: Entry, index: nat)
    requires ManualItem(dest, index).Some?
    ensures var f := ManualItem(dest, index).value.fields;
            && (forall k :: k in dest.fields ==> Get(f, k) == dest.fields[k])
            && (Order !in dest.fields ==> Get(f, Order) == VNum(index + 1))
            && (Activity !in dest.fields ==> Get(f, Activity) == DisplayName(Some(dest), index).value)
  {
  }

  /**
   * The rundown built from the trip list when no generated rundown is
   * given: one item per destination, in order, and the budget of the
   * list; `None` where naming a destination throws.
   */
  function ManualRundown(selected: seq<Entry>): (r: Option<Draft>)
    requires selected != []
    ensures r.None? <==> exists i :: 0 <= i < |selected| && ManualItem(selected[i], i).None?
    ensures r.Some? ==> r.value.itinerary.Items? && |r.value.itinerary.items| == |selected|
                        && forall i :: 0 <= i < |selected| ==> r.value.itinerary.items[i] == ManualItem(selected[i], i)
  {
    if exists i :: 0 <= i < |selected| && ManualItem(selected[i], i).None? then None
    else Some(Draft(ManualHead(selected), Items(ManualItems(selected))))
  }

  /** The rundown fields of the manual rundown. */
  function ManualHead(selected: seq<Entry>): Obj
    requires selected != []
  {
    map[][Title := VStr("Manual Trip Rundown")]
         [Description := VStr("")]
         [TripType := VStr("general")]
         [BudgetEstimation := VStr(EstimationText(Some(selected)))]
         [DataSource := VStr("manual")]
         [TotalDestinations := VNum(|selected|)]
  }

  /** `selectedDestinations.map(...)`. */
  function ManualItems(selected: seq<Entry>): (r: seq<Option<Entry>>)
    ensures |r| == |selected| && forall i :: 0 <= i < |selected| ==> r[i] == ManualItem(selected[i], i)
  {
    seq(|selected|, i requires 0 <= i < |selected| => ManualItem(selected[i], i))
  }

  // ---------------------------------------------------------------------------
  // validateForm

  /** An item the form accepts: present, with a label, activity, name or destinationName. */
  predicate ItemOk(item: Option<Entry>)
  {
    item.Some? &&
    (Truthy(Get(item.value.fields, Label)) || Truthy(Get(item.value.fields, Activity))
     || Truthy(Get(item.value.fields, Name)) || Truthy(Get(item.value.fields, DestinationName)))
  }

  function Invalid(): Option<Entry> -> bool
  {
    (item: Option<Entry>) => !ItemOk(item)
  }

  /** The errors of the data part of the form. */
  function DataErrors(draft: Option<Draft>): seq<string>
  {
    if draft.None? then ["Data rundown tidak tersedia"]
    else match draft.value.itinerary
      case NoItinerary => ["Data itinerary tidak tersedia"]
      case NotArray => ["Format itinerary tidak valid"]
      case Items(items) =>
        if items == [] then ["Rundown harus memiliki minimal 1 destinasi"]
        else
          var bad := |Filter(items, Invalid())|;
          if bad > 0 then ["Terdapat " + NatToString(bad) + " destinasi yang tidak valid"] else []
  }

  /** `validateForm`'s error list, in the order the checks push them. */
  function FormErrors(title: string, description: string, draft: Option<Draft>): (r: seq<string>)
    ensures Trim(title) == "" ==> r != [] && r[0] == "Judul rundown harus diisi"
    ensures |title| > 100 ==> "Judul rundown maksimal 100 karakter" in r
    ensures |description| > 500 ==> "Deskripsi maksimal 500 karakter" in r
  {
    (if Trim(title) == "" then ["Judul rundown harus diisi"] else [])
    + (if |title| > 100 then ["Judul rundown maksimal 100 karakter"] else [])
    + (if |description| > 500 then ["Deskripsi maksimal 500 karakter"] else [])
    + DataErrors(draft)
  }

  /** A list has no invalid item exactly when the filter of invalid items is empty. */
  lemma NoInvalid(items: seq<Option<Entry>>)
    ensures Filter(items, Invalid()) == [] <==> forall i :: 0 <= i < |items| ==> ItemOk(items[i])
  {
    FilterMembers(items, Invalid());
    if Filter(items, Invalid()) != [] {
      var x := Filter(items, Invalid())[0];
      assert x in items;
    }
    if exists i :: 0 <= i < |items| && !ItemOk(items[i]) {
      var i :| 0 <= i < |items| && !ItemOk(items[i]);
      assert items[i] in Filter(items, Invalid());
    }
  }

  /**
   * The form passes exactly when the title is not blank and at most 100
   * characters long, the description at most 500, and the rundown has a
   * non-empty itinerary array of acceptable items.
   */
  lemma FormValidIff(title: string, description: string, draft: Option<Draft>)
    ensures FormErrors(title, description, draft) == [] <==>
              Trim(title) != "" && |title| <= 100 && |description| <= 500
              && draft.Some? && draft.value.itinerary.Items? && draft.value.itinerary.items != []
              && forall i :: 0 <= i < |draft.value.itinerary.items| ==> ItemOk(draft.value.itinerary.items[i])
  {
    if draft.Some? && draft.value.itinerary.Items? {
      NoInvalid(draft.value.itinerary.items);
    }
  }

  /**
   * A manual rundown whose destinations all carry a label, or leave the
   * computed activity alone, passes the item check.
   */
  lemma ManualRundownItemsOk(selected: seq<Entry>)
    requires selected != []
    requires ManualRundown(selected).Some?
    requires forall i :: 0 <= i < |selected| ==>
               Truthy(Get(selected[i].fields, Label)) || Activity !in selected[i].fields
    ensures var items := ManualRundown(selected).value.itinerary.items;
            forall i :: 0 <= i < |items| ==> ItemOk(items[i])
  {
    var items := ManualRundown(selected).value.itinerary.items;
    forall i | 0 <= i < |items|
      ensures ItemOk(items[i])
    {
      var d := selected[i];
      assert items[i] == ManualItem(d, i);
      ManualItemSpread(d, i);
      if !Truthy(Get(d.fields, Label)) {
        var name := DisplayName(Some(d), i);
        assert !HasLabel(d.fields);
        assert Get(items[i].value.fields, Activity) == name.value;
        if !Truthy(Get(d.fields, Activity)) {
          assert name.value.VStr? && Trim(name.value.s) != "";
        }
      } else {
        assert Label in d.fields;
        assert Get(items[i].value.fields, Label) == Get(d.fields, Label);
      }
    }
  }

  // ---------------------------------------------------------------------------
  // handleSave

  /** `tags.split(",").map(tag => tag.trim()).filter(tag => tag)`. */
  function Tags(s: string): (r: seq<string>)
    ensures |r| <= |Split(s, ',')|
    ensures forall k :: 0 <= k < |r| ==> r[k] != ""
  {
    var parts := Split(s, ',');
    Filter(seq(|parts|, i requires 0 <= i < |parts| => Trim(parts[i])), NonEmpty())
  }

  function NonEmpty(): string -> bool
  {
    (t: string) => t != ""
  }

  /** Every tag is non-empty, already trimmed and free of commas; no more tags than comma-separated pieces. */
  lemma TagsClean(s: string)
    ensures |Tags(s)| <= |Split(s, ',')|
    ensures forall k :: 0 <= k < |Tags(s)| ==> Tags(s)[k] != "" && Trim(Tags(s)[k]) == Tags(s)[k] && ',' !in Tags(s)[k]
  {
    var parts := Split(s, ',');
    var trimmed := seq(|parts|, i requires 0 <= i < |parts| => Trim(parts[i]));
    var tags := Tags(s);
    assert tags == Filter(trimmed, NonEmpty());
    FilterMembers(trimmed, NonEmpty());
    forall k | 0 <= k < |tags|
      ensures Trim(tags[k]) == tags[k] && ',' !in tags[k]
    {
      assert tags[k] in trimmed;
      var i :| 0 <= i < |parts| && trimmed[i] == tags[k];
      TrimmedPiece(parts[i]);
    }
  }

  /** Every comma-separated piece that is not blank is kept as a tag, trimmed. */
  lemma TagsCover(s: string)
    ensures forall k :: 0 <= k < |Split(s, ',')| && Trim(Split(s, ',')[k]) != "" ==> Trim(Split(s, ',')[k]) in Tags(s)
  {
    var parts := Split(s, ',');
    var trimmed := seq(|parts|, i requires 0 <= i < |parts| => Trim(parts[i]));
    assert Tags(s) == Filter(trimmed, NonEmpty());
    FilterMembers(trimmed, NonEmpty());
    forall k | 0 <= k < |parts| && Trim(parts[k]) != ""
      ensures Trim(parts[k]) in Tags(s)
    {
      assert trimmed[k] == Trim(parts[k]) && trimmed[k] in trimmed && NonEmpty()(trimmed[k]);
    }
  }

  /** A piece of the split, trimmed, is its own trim and has no comma. */
  lemma TrimmedPiece(p: string)
    requires ',' !in p
    ensures Trim(Trim(p)) == Trim(p) && ',' !in Trim(p)
  {
    TrimTrimmed(p);
    TrimInside(p);
  }

  /** Trimming only drops characters from the ends. */
  lemma TrimInside(s: string)
    ensures forall c :: c in Trim(s) ==> c in s
  {
    var a := TrimStart(s);
    assert forall c :: c in TrimEnd(a) ==> c in a;
  }

  /** The fields `handleSave` sets on an item named `n`, over the item's own. */
  function NamedFields(item: Entry, index: nat, n: Value): (r: Obj)
    ensures Get(r, Order) == Or(Get(item.fields, Order), VNum(index + 1))
    ensures Get(r, Time) == Or(Get(item.fields, Time), VStr(DefaultTime(index)))
    ensures Get(r, Activity) == n && Get(r, Name) == n && Get(r, DestinationName) == n
    ensures Truthy(Get(r, Price)) && Truthy(Get(r, Duration))
  {
    var named := NameItem(item.fields, n, DestinationLocation(Some(item)), DestinationCategory(Some(item)),
                          DestinationPrice(Some(item)));
    WithDefaults(named, item.fields, index, n)
  }

  /** The defaulting half of `NamedFields`: the item's own value where truthy, else the default. */
  function WithDefaults(named: Obj, f: Obj, index: nat, n: Value): (r: Obj)
    ensures Get(r, Order) == Or(Get(f, Order), VNum(index + 1))
    ensures Get(r, Time) == Or(Get(f, Time), VStr(DefaultTime(index)))
    ensures Truthy(Get(r, Price)) && Truthy(Get(r, Duration))
    ensures forall k :: k !in {Order, Time, Duration, Notes, Price} ==> Get(r, k) == Get(named, k)
  {
    named[Order := Or(Get(f, Order), VNum(index + 1))]
         [Time := Or(Get(f, Time), VStr(DefaultTime(index)))]
         [Duration := Or(Get(f, Duration), VStr("2 jam"))]
         [Notes := Or(Get(f, Notes), VStr("Kunjungi " + ValueString(n)))]
         [Price := Or(Get(f, Price), VStr("Free"))]
  }

  /** The naming half of `NamedFields`: the name under all three keys, and the item's location, category and cost. */
  function NameItem(f: Obj, n: Value, location: Value, category: Value, cost: int): (r: Obj)
    ensures Get(r, Activity) == n && Get(r, Name) == n && Get(r, DestinationName) == n
  {
    f[DestinationName := n]
     [Activity := n]
     [Name := n]
     [Location := location]
     [Category := category]
     [EstimatedCost := VNum(cost)]
  }

  /** The fields of the `catch` branch, over the item's own. */
  function FallbackFields(item: Entry, index: nat): (r: Obj)
    ensures Get(r, Order) == VNum(index + 1) && Get(r, Time) == VStr(DefaultTime(index))
    ensures Get(r, Activity) == VStr(IndexName(index))
    ensures Truthy(Get(r, Price)) && Truthy(Get(r, Duration))
  {
    var n := VStr(IndexName(index));
    item.fields[DestinationName := n]
               [Activity := n]
               [Name := n]
               [Location := VStr("")]
               [Category := VStr("General")]
               [EstimatedCost := VNum(0)]
               [Order := VNum(index + 1)]
               [Time := VStr(DefaultTime(index))]
               [Duration := VStr("2 jam")]
               [Notes := VStr("Kunjungi destinasi " + NatToString(index + 1))]
               [Price := VStr("Free")]
  }

  /** One normalised item; the `catch` branch where naming it throws. */
  function NormalItem(item: Entry, index: nat): (r: Entry)
    ensures r.original == item.original
    ensures DisplayName(Some(item), index).Some? ==> r.fields == NamedFields(item, index, DisplayName(Some(item), index).value)
    ensures DisplayName(Some(item), index).None? ==> r.fields == FallbackFields(item, index)
  {
    var name := DisplayName(Some(item), index);
    if name.None? then Entry(FallbackFields(item, index), item.original)
    else Entry(NamedFields(item, index, name.value), item.original)
  }

  /**
   * A normalised item is numbered by its own `order` or its position, timed
   * by its own `time` or two hours after the previous default, and always
   * has a name, a price and a duration.
   */
  lemma NormalItemFields(item: Entry, index: nat)
    ensures var r := NormalItem(item, index).fields;
            && Truthy(Get(r, Price)) && Truthy(Get(r, Duration))
            && (Get(r, Order) == VNum(index + 1) || Get(r, Order) == Get(item.fields, Order))
            && (Get(r, Time) == VStr(DefaultTime(index)) || Get(r, Time) == Get(item.fields, Time))
  {
  }

  /** `.filter(item => item !== null)`. */
  function Present<T>(s: seq<Option<T>>): (r: seq<T>)
    ensures |r| <= |s|
    ensures (forall i :: 0 <= i < |s| ==> s[i].Some?) ==> |r| == |s| && forall i :: 0 <= i < |s| ==> r[i] == s[i].value
  {
    if s == [] then []
    else
      var rest := Present(s[1..]);
      assert forall i :: 0 < i < |s| ==> s[i] == s[1..][i - 1];
      (if s[0].Some? then [s[0].value] else []) + rest
  }

  /** The normalised itinerary: each item normalised at its index, `null` kept as `null`, then the `null`s dropped. */
  function Normalize(items: seq<Option<Entry>>): (r: seq<Entry>)
    ensures |r| <= |items|
    ensures (forall i :: 0 <= i < |items| ==> items[i].Some?) ==>
              |r| == |items| && forall i :: 0 <= i < |items| ==> r[i] == NormalItem(items[i].value, i)
  {
    var normal := seq(|items|, i requires 0 <= i < |items| => NormalAt(items, i));
    assert forall i :: 0 <= i < |items| && items[i].Some? ==> normal[i] == Some(NormalItem(items[i].value, i));
    Present(normal)
  }

  /** The `map` step: item `i` normalised, `null` kept. */
  function NormalAt(items: seq<Option<Entry>>, i: nat): (r: Option<Entry>)
    requires i < |items|
    ensures r.Some? <==> items[i].Some?
    ensures items[i].Some? ==> r == Some(NormalItem(items[i].value, i))
  {
    if items[i].Some? then Some(NormalItem(items[i].value, i)) else None
  }

  /** What `handleSave` hands to the store. */
  datatype Saved = Saved(fields: Obj, itinerary: seq<Entry>, tags: seq<string>)

  /**
   * `handleSave`: nothing when the form does not pass; otherwise the
   * rundown's own fields with the trimmed title and description, the
   * normalised itinerary and its count, the tags, the rundown's budget or
   * one computed from the normalised items, and where the data came from.
   * `selectedGiven` and `generatedGiven` say whether the dialog received a
   * trip list and a generated rundown.
   */
  function HandleSave(title: string, description: string, tags: string, tripType: string,
                      draft: Option<Draft>, selectedGiven: bool, generatedGiven: bool): (r: Option<Saved>)
    ensures r.Some? <==> FormErrors(title, description, draft) == []
  {
    if FormErrors(title, description, draft) != [] then None
    else
      FormValidIff(title, description, draft);
      var items := Normalize(draft.value.itinerary.items);
      Some(Saved(SavedFields(draft.value, Trim(title), Trim(description), tripType, items, selectedGiven, generatedGiven),
                 items, Tags(tags)))
  }

  /**
   * The record's own fields: the rundown's, with the form's (already
   * trimmed) and the computed ones over them.
   */
  function SavedFields(d: Draft, title: string, description: string, tripType: string, items: seq<Entry>,
                       selectedGiven: bool, generatedGiven: bool): (r: Obj)
    ensures Get(r, Title) == VStr(title) && Get(r, Description) == VStr(description)
    ensures Get(r, TotalDestinations) == VNum(|items|)
    ensures Truthy(Get(d.fields, BudgetEstimation)) ==> Get(r, BudgetEstimation) == Get(d.fields, BudgetEstimation)
    ensures !Truthy(Get(d.fields, BudgetEstimation)) ==> Get(r, BudgetEstimation) == VStr(EstimationText(Some(items)))
  {
    var budget := if Truthy(Get(d.fields, BudgetEstimation)) then Get(d.fields, BudgetEstimation)
                  else VStr(EstimationText(Some(items)));
    d.fields[Title := VStr(title)]
            [Description := VStr(description)]
            [TripType := VStr(tripType)]
            [BudgetEstimation := budget]
            [DataSource := Or(Get(d.fields, DataSource), VStr(if selectedGiven then "manual" else "generated"))]
            [TotalDestinations := VNum(|items|)]
            [CreatedFrom := VStr(if generatedGiven then "generated_rundown" else "manual_selection")]
  }

  /**
   * A saved rundown keeps every item of the form, in order, numbered by
   * its own `order` or its position, timed by its own `time` or two hours
   * apart from 09:00; its count is its length; its title is the trimmed,
   * non-blank title.
   */
  lemma SavedShape(title: string, description: string, tags: string, tripType: string,
                   draft: Option<Draft>, selectedGiven: bool, generatedGiven: bool)
    requires FormErrors(title, description, draft) == []
    ensures var r := HandleSave(title, description, tags, tripType, draft, selectedGiven, generatedGiven);
            && r.Some? && draft.Some? && draft.value.itinerary.Items?
            && var s := r.value;
               var items := draft.value.itinerary.items;
               && |s.itinerary| == |items| >= 1
               && Get(s.fields, TotalDestinations) == VNum(|items|)
               && Get(s.fields, Title) == VStr(Trim(title)) && Trim(title) != ""
               && forall i :: 0 <= i < |items| ==> items[i].Some? && s.itinerary[i] == NormalItem(items[i].value, i)
  {
    FormValidIff(title, description, draft);
    var items := draft.value.itinerary.items;
    assert forall i :: 0 <= i < |items| ==> items[i].Some? by {
      forall i | 0 <= i < |items| ensures items[i].Some? {
        assert ItemOk(items[i]);
      }
    }
    var norm := Normalize(items);
    var s := HandleSave(title, description, tags, tripType, draft, selectedGiven, generatedGiven).value;
    assert s.itinerary == norm;
    assert s.fields == SavedFields(draft.value, Trim(title), Trim(description), tripType, norm, selectedGiven, generatedGiven);
  }
}
