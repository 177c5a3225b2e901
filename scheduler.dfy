/**
 * The day scheduler of `generateRundown`: a clock that runs forward from
 * the start time while breakfast, a morning block, a buffer or snack, lunch,
 * an afternoon block, a snack, an evening activity, dinner and a final
 * activity are pushed onto the itinerary. A used-id set keeps any
 * destination from being scheduled twice.
 */
module Scheduler {
  import opened JsValues
  import opened Lists
  import opened Geography
  import opened Places
  import opened Clock
  import opened Transit
  import opened Itinerary

  /**
   * What stays fixed during the day: the pace, the transport answer, the
   * culinary places meals are taken at, the start reading and the end in
   * minutes.
   */
  datatype Plan = Plan(pace: Pace, transport: string, culinary: seq<Place>, startH: nat, startM: nat, endMinutes: nat)

  /**
   * The scheduler's variables: the clock, the itinerary, `usedDestinations`
   * (in insertion order), `optimizedDestinations` and `currentDestination`.
   * `threw` records that `getCategoryEmoji` has raised its `TypeError`; from
   * then on the rest of the day is never returned.
   */
  datatype Day = Day(hour: nat, minute: nat, items: seq<Item>, used: seq<string>, optimized: seq<Place>, current: Option<Place>,
                     threw: bool)

  /** `currentTimeMinutes`. */
  function Now(d: Day): nat
  {
    MinuteOfDay(d.hour, d.minute)
  }

  /** `[currentHour, currentMinute] = addTime(currentHour, currentMinute, 0, add)`. */
  function Advance(d: Day, add: nat): (e: Day)
    ensures e.items == d.items && e.used == d.used && e.optimized == d.optimized && e.current == d.current && e.threw == d.threw
  {
    var (h, m) := AddTime(d.hour, d.minute, 0, add);
    d.(hour := h, minute := m)
  }

  function Min(a: int, b: int): int
  {
    if a < b then a else b
  }

  /** `d => !usedDestinations.has(d.id)`. */
  function Free(used: seq<string>): Place -> bool
  {
    (p: Place) => p.id !in used
  }

  /** `d => d.id !== id`. */
  function NotId(id: string): Place -> bool
  {
    (p: Place) => p.id != id
  }

  /** The evening and final preference: an unused shopping or cafe place. */
  function EveningFree(used: seq<string>): Place -> bool
  {
    (p: Place) => p.id !in used && (p.category == VStr("Belanja") || p.category == VStr("Cafe"))
  }

  /** An unused culinary place whose location lies in the given area (`=== currentDestination.area`). */
  function SameAreaFree(used: seq<string>, area: Option<Area>): Place -> bool
  {
    (p: Place) => p.id !in used && Some(AreaFromLocation(Or(p.location, OriginalLocation(p)))) == area
  }

  /** The dinner filter: unused, and not the place of the first lunch item. */
  function DinnerFree(used: seq<string>, lunchId: Option<string>): Place -> bool
  {
    (p: Place) => p.id !in used && lunchId != Some(p.id)
  }

  /** The dinner filter within the current area. */
  function DinnerNear(used: seq<string>, lunchId: Option<string>, area: Option<Area>): Place -> bool
  {
    (p: Place) => p.id !in used && lunchId != Some(p.id) && Some(AreaFromLocation(Or(p.location, OriginalLocation(p)))) == area
  }

  /** `{ ...place, area, location }`: the stop just reached. */
  function Arrived(p: Place, area: Area, loc: Value): Place
  {
    p.(area := Some(area), location := loc)
  }

  /** `place?.location || place?.original?.location`. */
  function PlaceLocation(o: Option<Place>): Value
  {
    if o.Some? then Or(o.value.location, OriginalLocation(o.value)) else VNone
  }

  /** `currentDestination?.location`. */
  function CurrentLocation(o: Option<Place>): Value
  {
    if o.Some? then o.value.location else VNone
  }

  /** `currentDestination?.area || 'Jakarta Pusat'`. */
  function CurrentArea(o: Option<Place>): Area
  {
    if o.Some? && o.value.area.Some? then o.value.area.value else Pusat
  }

  /** Travel time from the current stop, or none before the first stop. */
  function TravelFrom(plan: Plan, d: Day, next: Place): nat
  {
    if d.current.Some? then TransitTime(plan.pace, plan.transport, d.current, Some(next)) else 0
  }

  /** Clock after the travel time, added only when there is some. */
  function Travel(d: Day, t: nat): (e: Day)
    ensures e.items == d.items && e.used == d.used && e.optimized == d.optimized && e.current == d.current && e.threw == d.threw
  {
    if t > 0 then Advance(d, t) else d
  }

  // ---------------------------------------------------------------------------
  // Meals

  /**
   * Serving a meal at `place` (if one was found) after the travel to it:
   * the item is pushed, the place is marked used and becomes the current
   * stop, and the clock moves on by the meal duration.
   */
  function ServeMeal(plan: Plan, d: Day, place: Option<Place>, loc: Value, travel: bool, tagPlace: bool,
                     title: string, untitled: string, notesHead: string, noPrice: string): Day
  {
    var area := AreaFromLocation(loc);
    var t := if travel && d.current.Some? && place.Some?
             then TransitTime(plan.pace, plan.transport, d.current, Some(place.value.(location := loc))) else 0;
    var d1 := Travel(d, t);
    var item := Item(d1.hour, d1.minute,
                     if place.Some? then title + " - " + place.value.labelText else untitled,
                     MinutesText(plan.pace.meal),
                     notesHead + AreaName(area) + TravelText(t),
                     if place.Some? then Or(place.value.price, VStr(noPrice)) else VStr(noPrice),
                     loc, area,
                     if tagPlace && place.Some? then Some(place.value.id) else None);
    var d2 := d1.(items := d1.items + [item],
                  used := if place.Some? then d1.used + [place.value.id] else d1.used,
                  current := if place.Some? then Some(Arrived(place.value, area, loc)) else d1.current);
    Advance(d2, plan.pace.meal)
  }

  /** The meal titles, with the pictographs as the source file holds them (see `Places.Pin`). */
  const BreakfastTitle: string := "\U{F8FF}\U{FC}\U{E7}\U{2265} Sarapan"
  const LunchTitle: string := "\U{F8FF}\U{FC}\U{E7}\U{FA} Istirahat Makan"
  const DinnerTitle: string := "\U{F8FF}\U{FC}\U{E7}\U{3A9}\U{D4}\U{220F}\U{E8} Makan Malam"
  const DinnerUntitled: string := "\U{F8FF}\U{FC}\U{E7}\U{3A9}\U{D4}\U{220F}\U{E8} Makan Malam di Restoran Pilihan"

  /** Breakfast, when the day starts before nine, at the first unused culinary place. */
  function Breakfast(plan: Plan, d: Day): Day
  {
    if plan.startH < 9 then
      var place := Find(plan.culinary, Free(d.used));
      var loc := Or(PlaceLocation(place), VStr("Jakarta Pusat"));
      ServeMeal(plan, d, place, loc, false, false, BreakfastTitle, BreakfastTitle,
                "Mulai hari dengan sarapan yang lezat di ", "Harga tidak tersedia")
    else d
  }

  /** `lunchPlace?.location || lunchPlace?.original?.location || currentDestination?.location || 'Jakarta Pusat'`. */
  function MealLocation(place: Option<Place>, current: Option<Place>): Value
  {
    Or(Or(PlaceLocation(place), CurrentLocation(current)), VStr("Jakarta Pusat"))
  }

  /** Is it between 11:00 and 14:30, when lunch is moved towards noon? */
  predicate LunchWindow(d: Day)
  {
    660 <= Now(d) <= 870
  }

  /** The clock before lunch: in the window and before noon, up to half an hour nearer to noon. */
  function LunchClock(d: Day): (e: Day)
    ensures e.items == d.items && e.used == d.used && e.optimized == d.optimized && e.current == d.current && e.threw == d.threw
    ensures LunchWindow(d) && Now(d) < 720 && d.minute < 60 && d.hour < 24 ==> Now(d) < Now(e) <= 720
  {
    if LunchWindow(d) && Now(d) < 720 then Advance(d, Min(720 - Now(d), 30)) else d
  }

  /**
   * The lunch place: in the window an unused culinary place in the current
   * area if there is one, else (and outside the window) the first unused
   * culinary place.
   */
  function LunchPlace(plan: Plan, d: Day, window: bool): (r: Option<Place>)
    ensures r.Some? ==> r.value in plan.culinary && r.value.id !in d.used
    ensures r.None? <==> forall p :: p in plan.culinary ==> p.id in d.used
  {
    var same := if window && d.current.Some? then Find(plan.culinary, SameAreaFree(d.used, d.current.value.area)) else None;
    if same.Some? then same else Find(plan.culinary, Free(d.used))
  }

  /**
   * In the window, with a current stop, lunch is at the first culinary place
   * (in the plan's order) that is unused and lies in the current area.
   */
  lemma LunchPlaceNear(plan: Plan, d: Day, window: bool, i: nat)
    requires window && d.current.Some?
    requires i < |plan.culinary| && SameAreaFree(d.used, d.current.value.area)(plan.culinary[i])
    requires forall j :: 0 <= j < i ==> !SameAreaFree(d.used, d.current.value.area)(plan.culinary[j])
    ensures LunchPlace(plan, d, window) == Some(plan.culinary[i])
  {
    FindAt(plan.culinary, SameAreaFree(d.used, d.current.value.area), i);
  }

  /**
   * Outside the window, before the first stop, or when no unused culinary
   * place lies in the current area, lunch is at the first unused culinary place.
   */
  lemma LunchPlaceFirstFree(plan: Plan, d: Day, window: bool, i: nat)
    requires !window || d.current.None?
             || forall k :: 0 <= k < |plan.culinary| ==> !SameAreaFree(d.used, d.current.value.area)(plan.culinary[k])
    requires i < |plan.culinary| && Free(d.used)(plan.culinary[i])
    requires forall j :: 0 <= j < i ==> !Free(d.used)(plan.culinary[j])
    ensures LunchPlace(plan, d, window) == Some(plan.culinary[i])
  {
    FindAt(plan.culinary, Free(d.used), i);
  }

  /** The lunch notes, in the window and outside it. */
  function LunchNotes(window: bool): string
  {
    if window then "Istirahat Istirahat Makan untuk mengisi energi di " else "Istirahat untuk makan dan mengisi energi di "
  }

  /**
   * Lunch, always served: between 11:00 and 14:30 it is moved towards noon
   * and prefers a place in the current area; at any other time it is served
   * at the first unused culinary place.
   */
  function Lunch(plan: Plan, d: Day): Day
  {
    var window := LunchWindow(d);
    var d1 := LunchClock(d);
    var place := LunchPlace(plan, d1, window);
    ServeMeal(plan, d1, place, MealLocation(place, d1.current), true, false, LunchTitle, LunchTitle,
              LunchNotes(window), "Rp 25.000 - 50.000")
  }

  /** `itinerary.find(item => item.activity.includes('Istirahat Makan'))?.placeId`. */
  function LunchPlaceId(items: seq<Item>): Option<string>
  {
    match Find(items, (it: Item) => Contains(it.activity, "Istirahat Makan"))
    case None => None
    case Some(it) => it.placeId
  }

  /** Is it between 17:00 and 20:30, when dinner is moved towards 18:00? */
  predicate DinnerWindow(d: Day)
  {
    1020 <= Now(d) <= 1230
  }

  /** The clock before dinner: in the window and before 18:00, up to half an hour nearer to 18:00. */
  function DinnerClock(d: Day): (e: Day)
    ensures e.items == d.items && e.used == d.used && e.optimized == d.optimized && e.current == d.current && e.threw == d.threw
    ensures DinnerWindow(d) && Now(d) < 1080 && d.minute < 60 && d.hour < 24 ==> Now(d) < Now(e) <= 1080
  {
    if DinnerWindow(d) && Now(d) < 1080 then Advance(d, Min(1080 - Now(d), 30)) else d
  }

  /**
   * The dinner place: unused and not the lunch item's place; in the window
   * one in the current area if there is one.
   */
  function DinnerPlace(plan: Plan, d: Day, window: bool): (r: Option<Place>)
    ensures r.Some? ==> r.value in plan.culinary && r.value.id !in d.used && LunchPlaceId(d.items) != Some(r.value.id)
    ensures r.None? <==> forall p :: p in plan.culinary ==> !DinnerFree(d.used, LunchPlaceId(d.items))(p)
  {
    var lunchId := LunchPlaceId(d.items);
    var same := if window && d.current.Some? then Find(plan.culinary, DinnerNear(d.used, lunchId, d.current.value.area)) else None;
    if same.Some? then same else Find(plan.culinary, DinnerFree(d.used, lunchId))
  }

  /**
   * In the window, with a current stop, dinner is at the first culinary
   * place that is unused, is not the lunch item's place and lies in the
   * current area.
   */
  lemma DinnerPlaceNear(plan: Plan, d: Day, window: bool, i: nat)
    requires window && d.current.Some?
    requires i < |plan.culinary| && DinnerNear(d.used, LunchPlaceId(d.items), d.current.value.area)(plan.culinary[i])
    requires forall j :: 0 <= j < i ==> !DinnerNear(d.used, LunchPlaceId(d.items), d.current.value.area)(plan.culinary[j])
    ensures DinnerPlace(plan, d, window) == Some(plan.culinary[i])
  {
    FindAt(plan.culinary, DinnerNear(d.used, LunchPlaceId(d.items), d.current.value.area), i);
  }

  /**
   * Outside the window, before the first stop, or when no suitable place
   * lies in the current area, dinner is at the first culinary place that is
   * unused and is not the lunch item's place.
   */
  lemma DinnerPlaceFirstFree(plan: Plan, d: Day, window: bool, i: nat)
    requires !window || d.current.None?
             || forall k :: 0 <= k < |plan.culinary| ==>
                  !DinnerNear(d.used, LunchPlaceId(d.items), d.current.value.area)(plan.culinary[k])
    requires i < |plan.culinary| && DinnerFree(d.used, LunchPlaceId(d.items))(plan.culinary[i])
    requires forall j :: 0 <= j < i ==> !DinnerFree(d.used, LunchPlaceId(d.items))(plan.culinary[j])
    ensures DinnerPlace(plan, d, window) == Some(plan.culinary[i])
  {
    FindAt(plan.culinary, DinnerFree(d.used, LunchPlaceId(d.items)), i);
  }

  /**
   * Dinner, when the meal ends before the trip does: between 17:00 and
   * 20:30 moved towards 18:00 and preferring the current area, otherwise at
   * the first suitable place.
   */
  function Dinner(plan: Plan, d: Day): Day
  {
    if Now(d) < plan.endMinutes - plan.pace.meal then
      var window := DinnerWindow(d);
      var d1 := DinnerClock(d);
      var place := DinnerPlace(plan, d1, window);
      ServeMeal(plan, d1, place, MealLocation(place, d1.current), true, true, DinnerTitle,
                DinnerUntitled,
                "Nikmati makan malam untuk mengakhiri trip di ", "Rp 35.000 - 75.000")
    else d
  }

  // ---------------------------------------------------------------------------
  // Visits

  /** A visit lasts the style's activity time, half an hour more at recreation and nature places. */
  function VisitLength(plan: Plan, p: Place): nat
  {
    plan.pace.activity + (if p.category == VStr("Rekreasi") || p.category == VStr("Alam") then 30 else 0)
  }

  /** The emoji of a category, or nothing where `getCategoryEmoji` throws (the day is then discarded). */
  function EmojiText(category: Value): string
  {
    match CategoryEmoji(category)
    case Some(e) => e
    case None => ""
  }

  /** The activity line of a visit. */
  function VisitItem(d: Day, next: Place, dur: nat, notesHead: string, t: nat): Item
  {
    var loc := VisitLocation(next, "Jakarta");
    var area := if next.area.Some? then next.area.value else AreaFromLocation(loc);
    Item(d.hour, d.minute,
         EmojiText(next.category) + " " + ValueString(next.category) + " - " + next.labelText,
         HoursText(dur),
         notesHead + " di " + AreaName(area) + TravelText(t),
         Or(next.price, VStr("Harga tidak tersedia")),
         loc, area, None)
  }

  /**
   * Visiting `next` for `dur` minutes: travel, push the activity, mark it
   * used, drop it from the remaining destinations, make it the current stop
   * and move the clock on; a category that makes `getCategoryEmoji` throw
   * sets `threw`.
   */
  function Visit(plan: Plan, d: Day, next: Place, dur: nat, notesHead: string): Day
  {
    var t := TravelFrom(plan, d, next);
    var d1 := Travel(d, t);
    var item := VisitItem(d1, next, dur, notesHead, t);
    var d2 := d1.(items := d1.items + [item],
                  used := d1.used + [next.id],
                  optimized := Filter(d1.optimized, NotId(next.id)),
                  current := Some(Arrived(next, item.area, item.location)),
                  threw := d1.threw || CategoryThrows(next.category));
    Advance(d2, dur)
  }

  /** The notes of the `n`-th visit of a block: ` (lanjutan)` after the first. */
  function Head(notesHead: string, n: nat): string
  {
    notesHead + (if n > 0 then " (lanjutan)" else "")
  }

  /** Whether the loop of a block runs once more. */
  predicate BlockGoes(plan: Plan, d: Day, gate: int, n: nat)
  {
    n < plan.pace.blockCap && Now(d) < gate && |d.optimized| > 0
  }

  /**
   * The morning or afternoon loop from its `n`-th activity on: while fewer
   * than the style's cap were added, a visit still fits before `gate`, and
   * destinations remain, the first unused one is visited.
   */
  function Block(plan: Plan, d: Day, gate: int, notesHead: string, n: nat): Day
    decreases plan.pace.blockCap - n
  {
    if BlockGoes(plan, d, gate, n) then
      match Find(d.optimized, Free(d.used))
      case None => d
      case Some(next) =>
        Block(plan, Visit(plan, d, next, VisitLength(plan, next), Head(notesHead, n)), gate, notesHead, n + 1)
    else d
  }

  /** One turn of a block's loop. */
  lemma BlockUnroll(plan: Plan, d: Day, gate: int, notesHead: string, n: nat)
    ensures !BlockGoes(plan, d, gate, n) ==> Block(plan, d, gate, notesHead, n) == d
    ensures BlockGoes(plan, d, gate, n) && Find(d.optimized, Free(d.used)).None? ==> Block(plan, d, gate, notesHead, n) == d
    ensures BlockGoes(plan, d, gate, n) && Find(d.optimized, Free(d.used)).Some? ==>
              var next := Find(d.optimized, Free(d.used)).value;
              Block(plan, d, gate, notesHead, n)
              == Block(plan, Visit(plan, d, next, VisitLength(plan, next), Head(notesHead, n)), gate, notesHead, n + 1)
  {
  }

  /** The `while` loops of the morning and the afternoon. */
  method RunBlock(plan: Plan, d: Day, gate: int, notesHead: string) returns (r: Day)
    ensures r == Block(plan, d, gate, notesHead, 0)
  {
    r := d;
    var n := 0;
    while n < plan.pace.blockCap && Now(r) < gate && |r.optimized| > 0
      invariant Block(plan, r, gate, notesHead, n) == Block(plan, d, gate, notesHead, 0)
      decreases plan.pace.blockCap - n
    {
      BlockUnroll(plan, r, gate, notesHead, n);
      var next := Find(r.optimized, Free(r.used));
      if next.None? {
        return;
      }
      r := Visit(plan, r, next.value, VisitLength(plan, next.value), Head(notesHead, n));
      n := n + 1;
    }
    BlockUnroll(plan, r, gate, notesHead, n);
  }

  /** The morning activities, until a visit would run past noon. */
  function MorningGate(plan: Plan): int
  {
    720 - plan.pace.activity
  }

  /** The afternoon activities, until a visit would run past 18:00. */
  function AfternoonGate(plan: Plan): int
  {
    1080 - plan.pace.activity
  }

  // ---------------------------------------------------------------------------
  // Buffers and snacks

  /** A snack line at the current stop. */
  function SnackItem(d: Day, notes: string): Item
  {
    Item(d.hour, d.minute, SnackActivity, "30 menit", notes, VStr("Rp 15.000 - 30.000"),
         Or(CurrentLocation(d.current), VStr("Jakarta")), CurrentArea(d.current), None)
  }

  /**
   * Before 11:30: a snack and up to 45 buffer minutes when more than two
   * hours have passed since the start, otherwise up to an hour of buffer.
   */
  function MorningBuffer(plan: Plan, d: Day): Day
  {
    if Now(d) < 690 then
      if Now(d) > MinuteOfDay(plan.startH, plan.startM) + 120 then
        var d1 := Advance(d.(items := d.items + [SnackItem(d, "Istirahat sejenak dengan kopi/teh sebelum Istirahat Makan")]), 30);
        var buffer := Min(720 - Now(d1), 45);
        if buffer > 15 then Advance(d1, buffer) else d1
      else
        Advance(d, Min(720 - Now(d), 60))
    else d
  }

  /** The afternoon snack between 15:00 and 17:15, unless an activity mentions `Coffee`. */
  function AfternoonSnack(d: Day): Day
  {
    if Now(d) < 1035 && Now(d) > 900 && !(exists i :: 0 <= i < |d.items| && Contains(d.items[i].activity, "Coffee")) then
      Advance(d.(items := d.items + [SnackItem(d, "Nikmati kopi/teh sore hari")]), 30)
    else d
  }

  /** One visit before dinner if it fits, preferring shopping and cafes. */
  function Evening(plan: Plan, d: Day): Day
  {
    if Now(d) < AfternoonGate(plan) && |d.optimized| > 0 then
      var pick := Find(d.optimized, EveningFree(d.used));
      var next := if pick.Some? then pick else Find(d.optimized, Free(d.used));
      if next.Some? then Visit(plan, d, next.value, plan.pace.activity, "Aktivitas sore menjelang malam") else d
    else d
  }

  /** Up to an hour of buffer before 17:30. */
  function DinnerBuffer(d: Day): Day
  {
    if Now(d) < 1050 then Advance(d, Min(1080 - Now(d), 60)) else d
  }

  /**
   * A last visit when half an activity still fits before the end: shortened
   * to end a quarter hour before the trip does, and pushed only when at
   * least 45 minutes remain. It is marked used but stays among the remaining
   * destinations, and the clock is not moved past it.
   */
  function Final(plan: Plan, d: Day): Day
  {
    if Now(d) < plan.endMinutes - plan.pace.activity / 2 && |d.optimized| > 0 then
      var pick := Find(d.optimized, EveningFree(d.used));
      var next := if pick.Some? then pick else Find(d.optimized, Free(d.used));
      if next.Some? then
        var t := TravelFrom(plan, d, next.value);
        var d1 := Travel(d, t);
        var dur := Min(plan.pace.activity, plan.endMinutes - Now(d1) - 15);
        if dur >= 45 then
          d1.(items := d1.items + [VisitItem(d1, next.value, dur, "Aktivitas malam untuk mengakhiri hari", t)],
              used := d1.used + [next.value.id],
              threw := d1.threw || CategoryThrows(next.value.category))
        else d1
      else d
    else d
  }

  // ---------------------------------------------------------------------------
  // The day

  /** The day up to dinner. */
  function BeforeDinner(plan: Plan, route: seq<Place>): Day
  {
    var d0 := Day(plan.startH, plan.startM, [], [], route, None, false);
    var d1 := Block(plan, Breakfast(plan, d0), MorningGate(plan), "Aktivitas pagi", 0);
    var d2 := Lunch(plan, MorningBuffer(plan, d1));
    var d3 := Block(plan, d2, AfternoonGate(plan), "Aktivitas siang/sore", 0);
    DinnerBuffer(Evening(plan, AfternoonSnack(d3)))
  }

  /** The day before the final passes, from the start reading with nothing used. */
  function Schedule(plan: Plan, optimized: seq<Place>): Day
  {
    Final(plan, Dinner(plan, BeforeDinner(plan, optimized)))
  }

  /** The scheduler run stage by stage. */
  method RunSchedule(plan: Plan, optimized: seq<Place>) returns (d: Day)
    ensures d == Schedule(plan, optimized)
  {
    d := Day(plan.startH, plan.startM, [], [], optimized, None, false);
    d := Breakfast(plan, d);
    d := RunBlock(plan, d, MorningGate(plan), "Aktivitas pagi");
    d := MorningBuffer(plan, d);
    d := Lunch(plan, d);
    d := RunBlock(plan, d, AfternoonGate(plan), "Aktivitas siang/sore");
    d := AfternoonSnack(d);
    d := Evening(plan, d);
    d := DinnerBuffer(d);
    d := Dinner(plan, d);
    d := Final(plan, d);
  }

  // ---------------------------------------------------------------------------
  // What the scheduler guarantees

  /** Some place of `ps` has the id. */
  predicate HasId(ps: seq<Place>, x: string)
  {
    exists p :: p in ps && p.id == x
  }

  /** Some routed place has a category on which `getCategoryEmoji` throws. */
  predicate Faulty(route: seq<Place>)
  {
    exists p :: p in route && CategoryThrows(p.category)
  }

  /**
   * The scheduler invariant: no id is used twice, every used id is that of
   * a culinary or a routed place, the remaining destinations are routed
   * places, and the day has thrown only if some routed place has a category
   * that throws.
   */
  predicate Inv(plan: Plan, route: seq<Place>, d: Day)
  {
    && Distinct(d.used)
    && (forall x :: x in d.used ==> HasId(plan.culinary, x) || HasId(route, x))
    && (forall p :: p in d.optimized ==> p in route)
    && (d.threw ==> Faulty(route))
  }

  /** No item carries a place id (only dinner items do). */
  predicate Quiet(d: Day)
  {
    forall k :: 0 <= k < |d.items| ==> d.items[k].placeId == None
  }

  /** A stage only appends: earlier items and earlier used ids stay as they were, and an exception stays raised. */
  predicate Extends(d: Day, e: Day)
  {
    && |d.items| <= |e.items| && e.items[..|d.items|] == d.items
    && |d.used| <= |e.used| && e.used[..|d.used|] == d.used
    && (d.threw ==> e.threw)
  }

  /** A stage that keeps the invariant and only appends. */
  predicate Step(plan: Plan, route: seq<Place>, d: Day, e: Day)
  {
    (Inv(plan, route, d) ==> Inv(plan, route, e)) && Extends(d, e)
  }

  /** A stage before dinner: a step that gives no item a place id. */
  predicate QuietStep(plan: Plan, route: seq<Place>, d: Day, e: Day)
  {
    Step(plan, route, d, e) && (Quiet(d) ==> Quiet(e))
  }

  lemma ExtendsTrans(a: Day, b: Day, c: Day)
    requires Extends(a, b) && Extends(b, c)
    ensures Extends(a, c)
  {
    assert c.items[..|a.items|] == c.items[..|b.items|][..|a.items|];
    assert c.used[..|a.used|] == c.used[..|b.used|][..|a.used|];
  }

  lemma StepTrans(plan: Plan, route: seq<Place>, a: Day, b: Day, c: Day)
    requires Step(plan, route, a, b) && Step(plan, route, b, c)
    ensures Step(plan, route, a, c)
  {
    ExtendsTrans(a, b, c);
  }

  /** Pushing one item and appending at most one fresh id of a culinary or routed place is a step. */
  lemma PushStep(plan: Plan, route: seq<Place>, d: Day, e: Day, it: Item, x: Option<string>)
    requires e.items == d.items + [it]
    requires e.used == if x.Some? then d.used + [x.value] else d.used
    requires x.Some? ==> x.value !in d.used && (HasId(plan.culinary, x.value) || HasId(route, x.value))
    requires forall p :: p in e.optimized ==> p in d.optimized
    requires d.threw ==> e.threw
    requires Inv(plan, route, d) && e.threw ==> d.threw || Faulty(route)
    ensures Step(plan, route, d, e)
    ensures it.placeId == None ==> (Quiet(d) ==> Quiet(e))
  {
    assert e.items[..|d.items|] == d.items;
    assert e.used[..|d.used|] == d.used;
  }

  /** A meal at an unused culinary place keeps the invariant and pushes exactly one item. */
  lemma ServeMealStep(plan: Plan, route: seq<Place>, d: Day, place: Option<Place>, loc: Value, travel: bool, tagPlace: bool,
                      title: string, untitled: string, notesHead: string, noPrice: string)
    requires place.Some? ==> place.value in plan.culinary && place.value.id !in d.used
    ensures var e := ServeMeal(plan, d, place, loc, travel, tagPlace, title, untitled, notesHead, noPrice);
            && Step(plan, route, d, e) && |e.items| == |d.items| + 1 && e.optimized == d.optimized
            && (!tagPlace ==> (Quiet(d) ==> Quiet(e)))
            && (title == untitled ==> StartsWith(e.items[|d.items|].activity, title))
  {
    var e := ServeMeal(plan, d, place, loc, travel, tagPlace, title, untitled, notesHead, noPrice);
    ServeMealShape(plan, d, place, loc, travel, tagPlace, title, untitled, notesHead, noPrice);
    var it := e.items[|d.items|];
    if place.Some? {
      assert HasId(plan.culinary, place.value.id);
      PushStep(plan, route, d, e, it, Some(place.value.id));
      if title == untitled {
        assert (title + " - ")[..|title|] == title;
        assert it.activity[..|title|] == title;
      }
    } else {
      PushStep(plan, route, d, e, it, None);
    }
  }

  /** What a meal changes: one item pushed, the place's id appended when there is a place. */
  lemma ServeMealShape(plan: Plan, d: Day, place: Option<Place>, loc: Value, travel: bool, tagPlace: bool,
                       title: string, untitled: string, notesHead: string, noPrice: string)
    ensures var e := ServeMeal(plan, d, place, loc, travel, tagPlace, title, untitled, notesHead, noPrice);
            && |e.items| == |d.items| + 1 && e.items == d.items + [e.items[|d.items|]]
            && e.used == (if place.Some? then d.used + [place.value.id] else d.used)
            && e.optimized == d.optimized && e.threw == d.threw
            && e.items[|d.items|].placeId == (if tagPlace && place.Some? then Some(place.value.id) else None)
            && e.items[|d.items|].activity == (if place.Some? then title + " - " + place.value.labelText else untitled)
  {
    var e := ServeMeal(plan, d, place, loc, travel, tagPlace, title, untitled, notesHead, noPrice);
    var it := e.items[|d.items|];
    assert e.items == d.items + [it];
  }

  /** A visit to an unused remaining destination keeps the invariant and pushes exactly one item. */
  lemma VisitStep(plan: Plan, route: seq<Place>, d: Day, next: Place, dur: nat, notesHead: string)
    requires next in d.optimized && next.id !in d.used
    ensures var e := Visit(plan, d, next, dur, notesHead);
            && QuietStep(plan, route, d, e) && |e.items| == |d.items| + 1 && e.used == d.used + [next.id]
            && (e.threw <==> d.threw || CategoryThrows(next.category))
  {
    var e := Visit(plan, d, next, dur, notesHead);
    FilterMembers(Travel(d, TravelFrom(plan, d, next)).optimized, NotId(next.id));
    assert next in route ==> HasId(route, next.id);
    if Inv(plan, route, d) {
      assert HasId(route, next.id);
      assert CategoryThrows(next.category) ==> Faulty(route);
    }
    var it := e.items[|d.items|];
    assert e.items == d.items + [it];
    if HasId(route, next.id) {
      PushStep(plan, route, d, e, it, Some(next.id));
    } else {
      assert !Inv(plan, route, d);
      assert e.items[..|d.items|] == d.items;
      assert e.used[..|d.used|] == d.used;
    }
  }

  /**
   * A morning or afternoon block keeps the invariant, adds one item and one
   * used id per visit, at most as many visits as the style allows, and gives
   * no item a place id.
   */
  lemma {:induction false} BlockStep(plan: Plan, route: seq<Place>, d: Day, gate: int, notesHead: string, n: nat)
    requires n <= plan.pace.blockCap
    ensures var e := Block(plan, d, gate, notesHead, n);
            && QuietStep(plan, route, d, e)
            && |e.items| - |d.items| == |e.used| - |d.used| <= plan.pace.blockCap - n
    decreases plan.pace.blockCap - n
  {
    BlockUnroll(plan, d, gate, notesHead, n);
    if BlockGoes(plan, d, gate, n) {
      var next := Find(d.optimized, Free(d.used));
      if next.Some? {
        var d1 := Visit(plan, d, next.value, VisitLength(plan, next.value), Head(notesHead, n));
        VisitStep(plan, route, d, next.value, VisitLength(plan, next.value), Head(notesHead, n));
        BlockStep(plan, route, d1, gate, notesHead, n + 1);
        StepTrans(plan, route, d, d1, Block(plan, d1, gate, notesHead, n + 1));
      }
    }
  }

  /** Breakfast keeps the invariant and pushes at most one item, with no place id. */
  lemma BreakfastStep(plan: Plan, route: seq<Place>, d: Day)
    ensures var e := Breakfast(plan, d);
            QuietStep(plan, route, d, e) && |e.items| <= |d.items| + 1
  {
    if plan.startH < 9 {
      var place := Find(plan.culinary, Free(d.used));
      ServeMealStep(plan, route, d, place, Or(PlaceLocation(place), VStr("Jakarta Pusat")), false, false, BreakfastTitle, BreakfastTitle,
                    "Mulai hari dengan sarapan yang lezat di ", "Harga tidak tersedia");
    }
  }

  /** The morning buffer uses no destination and pushes at most one item, with no place id. */
  lemma MorningBufferStep(plan: Plan, route: seq<Place>, d: Day)
    ensures var e := MorningBuffer(plan, d);
            QuietStep(plan, route, d, e) && e.used == d.used && e.optimized == d.optimized
  {
    if Now(d) < 690 && Now(d) > MinuteOfDay(plan.startH, plan.startM) + 120 {
      var it := SnackItem(d, "Istirahat sejenak dengan kopi/teh sebelum Istirahat Makan");
      PushStep(plan, route, d, MorningBuffer(plan, d), it, None);
    }
  }

  /** The afternoon snack uses no destination and pushes at most one item, with no place id. */
  lemma AfternoonSnackStep(plan: Plan, route: seq<Place>, d: Day)
    ensures var e := AfternoonSnack(d);
            QuietStep(plan, route, d, e) && e.used == d.used && e.optimized == d.optimized
  {
    if AfternoonSnack(d) != d {
      PushStep(plan, route, d, AfternoonSnack(d), SnackItem(d, "Nikmati kopi/teh sore hari"), None);
    }
  }

  /** The item text that marks a lunch. */
  predicate IsLunch(it: Item)
  {
    StartsWith(it.activity, LunchTitle)
  }

  /** Lunch keeps the invariant and pushes exactly one lunch item, with no place id. */
  lemma LunchStep(plan: Plan, route: seq<Place>, d: Day)
    ensures var e := Lunch(plan, d);
            QuietStep(plan, route, d, e) && |e.items| == |d.items| + 1 && IsLunch(e.items[|d.items|])
  {
    var window := LunchWindow(d);
    var d1 := LunchClock(d);
    var place := LunchPlace(plan, d1, window);
    var e := ServeMeal(plan, d1, place, MealLocation(place, d1.current), true, false, LunchTitle, LunchTitle,
                  LunchNotes(window), "Rp 25.000 - 50.000");
    assert Lunch(plan, d) == e;
    ServeMealStep(plan, route, d1, place, MealLocation(place, d1.current), true, false, LunchTitle, LunchTitle,
                  LunchNotes(window), "Rp 25.000 - 50.000");
    assert d1.items == d.items && d1.used == d.used && d1.optimized == d.optimized;
    if Inv(plan, route, d) {
      assert Inv(plan, route, d1);
    }
    if Quiet(d) {
      assert Quiet(d1);
    }
  }

  /** The evening visit keeps the invariant and pushes at most one item, with no place id. */
  lemma EveningStep(plan: Plan, route: seq<Place>, d: Day)
    ensures var e := Evening(plan, d);
            QuietStep(plan, route, d, e) && |e.items| <= |d.items| + 1
  {
    if Now(d) < AfternoonGate(plan) && |d.optimized| > 0 {
      var pick := Find(d.optimized, EveningFree(d.used));
      var next := if pick.Some? then pick else Find(d.optimized, Free(d.used));
      if next.Some? {
        VisitStep(plan, route, d, next.value, plan.pace.activity, "Aktivitas sore menjelang malam");
      }
    }
  }

  /** The dinner buffer changes nothing but the clock. */
  lemma DinnerBufferStep(plan: Plan, route: seq<Place>, d: Day)
    ensures var e := DinnerBuffer(d);
            QuietStep(plan, route, d, e) && e.items == d.items && e.used == d.used && e.optimized == d.optimized
  {
    assert d.items[..|d.items|] == d.items;
    assert d.used[..|d.used|] == d.used;
  }

  /** Dinner keeps the invariant and pushes at most one item. */
  lemma DinnerStep(plan: Plan, route: seq<Place>, d: Day)
    ensures var e := Dinner(plan, d);
            Step(plan, route, d, e) && |e.items| <= |d.items| + 1
  {
    if Now(d) < plan.endMinutes - plan.pace.meal {
      var window := DinnerWindow(d);
      var d1 := DinnerClock(d);
      var place := DinnerPlace(plan, d1, window);
      var e := ServeMeal(plan, d1, place, MealLocation(place, d1.current), true, true, DinnerTitle,
                         DinnerUntitled,
                         "Nikmati makan malam untuk mengakhiri trip di ", "Rp 35.000 - 75.000");
      assert Dinner(plan, d) == e;
      ServeMealStep(plan, route, d1, place, MealLocation(place, d1.current), true, true, DinnerTitle,
                    DinnerUntitled,
                    "Nikmati makan malam untuk mengakhiri trip di ", "Rp 35.000 - 75.000");
      assert d1.items == d.items && d1.used == d.used && d1.optimized == d.optimized;
      if Inv(plan, route, d) {
        assert Inv(plan, route, d1);
      }
    } else {
      DinnerBufferStep(plan, route, d);
    }
  }

  /** The final visit keeps the invariant and pushes at most one item. */
  lemma FinalStep(plan: Plan, route: seq<Place>, d: Day)
    ensures var e := Final(plan, d);
            Step(plan, route, d, e) && |e.items| <= |d.items| + 1
  {
    var e := Final(plan, d);
    if e.items == d.items {
      assert e.used == d.used;
      DinnerBufferStep(plan, route, d);
      assert e.optimized == d.optimized;
    } else {
      var pick := Find(d.optimized, EveningFree(d.used));
      var next := if pick.Some? then pick else Find(d.optimized, Free(d.used));
      assert next.Some? && next.value in d.optimized && next.value.id !in d.used;
      assert next.value in route ==> HasId(route, next.value.id);
      var it := e.items[|d.items|];
      assert e.items == d.items + [it];
      if Inv(plan, route, d) {
        assert CategoryThrows(next.value.category) ==> Faulty(route);
      }
      if HasId(route, next.value.id) {
        PushStep(plan, route, d, e, it, Some(next.value.id));
      } else {
        assert e.items[..|d.items|] == d.items;
        assert e.used[..|d.used|] == d.used;
      }
    }
  }

  /** When no item carries a place id, the dinner's "not the lunch place" test excludes nothing. */
  lemma LunchPlaceIdNone(items: seq<Item>)
    requires forall k :: 0 <= k < |items| ==> items[k].placeId == None
    ensures LunchPlaceId(items) == None
  {
  }

  /**
   * Up to dinner the scheduler keeps its invariant, has pushed exactly one
   * lunch, and has given no item a place id, so the dinner test against the
   * lunch place excludes nothing; each block adds at most the style's cap
   * of visits.
   */
  lemma BeforeDinnerGuarantees(plan: Plan, route: seq<Place>)
    ensures var d := BeforeDinner(plan, route);
            && Inv(plan, route, d)
            && Quiet(d)
            && LunchPlaceId(d.items) == None
            && (exists k :: 0 <= k < |d.items| && IsLunch(d.items[k]))
    ensures var d0 := Day(plan.startH, plan.startM, [], [], route, None, false);
            var d1 := Block(plan, Breakfast(plan, d0), MorningGate(plan), "Aktivitas pagi", 0);
            var d2 := Lunch(plan, MorningBuffer(plan, d1));
            var d3 := Block(plan, d2, AfternoonGate(plan), "Aktivitas siang/sore", 0);
            && |d1.items| - |Breakfast(plan, d0).items| <= plan.pace.blockCap
            && |d3.items| - |d2.items| <= plan.pace.blockCap
  {
    var d0 := Day(plan.startH, plan.startM, [], [], route, None, false);
    var d1 := Block(plan, Breakfast(plan, d0), MorningGate(plan), "Aktivitas pagi", 0);
    var d2 := Lunch(plan, MorningBuffer(plan, d1));
    var d4 := DinnerBuffer(Evening(plan, AfternoonSnack(Block(plan, d2, AfternoonGate(plan), "Aktivitas siang/sore", 0))));
    assert d4 == BeforeDinner(plan, route);
    MorningStages(plan, route, d0);
    AfternoonStages(plan, route, d2);
    StepTrans(plan, route, d0, d2, d4);
    assert Inv(plan, route, d0) && Quiet(d0);
    LunchPlaceIdNone(d4.items);
    var k := |d2.items| - 1;
    assert d4.items[k] == d4.items[..|d2.items|][k];
  }

  /** Breakfast, the morning block, the buffer and lunch: a quiet step that ends in a lunch item. */
  lemma MorningStages(plan: Plan, route: seq<Place>, d0: Day)
    ensures var b := Breakfast(plan, d0);
            var d1 := Block(plan, b, MorningGate(plan), "Aktivitas pagi", 0);
            var d2 := Lunch(plan, MorningBuffer(plan, d1));
            && QuietStep(plan, route, d0, d2)
            && |d2.items| >= 1 && IsLunch(d2.items[|d2.items| - 1])
            && |d1.items| - |b.items| <= plan.pace.blockCap
  {
    var b := Breakfast(plan, d0);
    BreakfastStep(plan, route, d0);
    var d1 := Block(plan, b, MorningGate(plan), "Aktivitas pagi", 0);
    BlockStep(plan, route, b, MorningGate(plan), "Aktivitas pagi", 0);
    var m := MorningBuffer(plan, d1);
    MorningBufferStep(plan, route, d1);
    var d2 := Lunch(plan, m);
    LunchStep(plan, route, m);
    StepTrans(plan, route, d0, b, d1);
    StepTrans(plan, route, d0, d1, m);
    StepTrans(plan, route, d0, m, d2);
  }

  /** The afternoon block, the snack, the evening visit and the dinner buffer: a quiet step. */
  lemma AfternoonStages(plan: Plan, route: seq<Place>, d2: Day)
    ensures var d3 := Block(plan, d2, AfternoonGate(plan), "Aktivitas siang/sore", 0);
            var d4 := DinnerBuffer(Evening(plan, AfternoonSnack(d3)));
            && QuietStep(plan, route, d2, d4)
            && |d3.items| - |d2.items| <= plan.pace.blockCap
  {
    var d3 := Block(plan, d2, AfternoonGate(plan), "Aktivitas siang/sore", 0);
    BlockStep(plan, route, d2, AfternoonGate(plan), "Aktivitas siang/sore", 0);
    var s := AfternoonSnack(d3);
    AfternoonSnackStep(plan, route, d3);
    var v := Evening(plan, s);
    EveningStep(plan, route, s);
    var d4 := DinnerBuffer(v);
    DinnerBufferStep(plan, route, v);
    StepTrans(plan, route, d2, d3, s);
    StepTrans(plan, route, d2, s, v);
    StepTrans(plan, route, d2, v, d4);
  }

  /**
   * The scheduler's guarantees for the whole day: it never uses an id
   * twice, uses only ids of culinary or routed places, and keeps the one
   * lunch, so the day is never empty; it throws only when some routed place
   * has a category that makes `getCategoryEmoji` throw.
   */
  lemma ScheduleGuarantees(plan: Plan, route: seq<Place>)
    ensures var d := Schedule(plan, route);
            && Inv(plan, route, d)
            && (d.threw ==> Faulty(route))
            && |d.items| >= 1
            && (exists k :: 0 <= k < |d.items| && IsLunch(d.items[k]))
  {
    var d4 := BeforeDinner(plan, route);
    BeforeDinnerGuarantees(plan, route);
    var dn := Dinner(plan, d4);
    DinnerStep(plan, route, d4);
    var f := Final(plan, dn);
    FinalStep(plan, route, dn);
    StepTrans(plan, route, d4, dn, f);
    assert f == Schedule(plan, route);
    KeepsLunch(d4, f);
  }

  /** A stage that only appends keeps an earlier lunch item. */
  lemma KeepsLunch(d: Day, e: Day)
    requires Extends(d, e) && exists k :: 0 <= k < |d.items| && IsLunch(d.items[k])
    ensures exists k :: 0 <= k < |e.items| && IsLunch(e.items[k])
  {
    var k :| 0 <= k < |d.items| && IsLunch(d.items[k]);
    assert e.items[k] == e.items[..|d.items|][k];
  }
}
