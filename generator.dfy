/**
 * `generateRundown`: candidate selection, the split into culinary and other
 * places, the route, the day scheduler, the final passes over the
 * itinerary, the budget estimate and the trip summary; or the error rundown
 * when the environment filter, the priority sort or `getCategoryEmoji` throws.
 */
module Generator {
  import opened JsValues
  import opened Lists
  import opened Geography
  import opened Places
  import opened Prices
  import opened Preferences
  import opened Selection
  import Route
  import opened Clock
  import opened Transit
  import opened Itinerary
  import opened Scheduler
  import opened Budget

  /** `tripDetails`. */
  datatype TripDetails = TripDetails(destinationCount: nat, categories: seq<Value>, areasVisited: seq<Area>, areaChanges: nat)

  /** The object `generateRundown` returns; `error` is set on the error rundown only, to the exception caught. */
  datatype Rundown = Rundown(
    title: string,
    itinerary: seq<Item>,
    budgetEstimation: string,
    preferences: Prefs,
    details: Option<TripDetails>,
    error: Option<Fault>)

  /** The rundown returned from the `catch` block for the exception `f`. */
  function ErrorRundown(prefs: Prefs, f: Fault): (r: Rundown)
    ensures r.title == "Error generating rundown" && r.preferences == prefs
    ensures r.itinerary == [] && r.budgetEstimation == "N/A" && r.details.None? && r.error == Some(f)
  {
    Rundown("Error generating rundown", [], "N/A", prefs, None, Some(f))
  }

  /** `dest.category === 'Kuliner'`. */
  function Culinary(): Place -> bool
  {
    (p: Place) => p.category == VStr("Kuliner")
  }

  /**
   * The route starts in the area of the first trip entry (its own location,
   * else its catalog record's), when that is a known one, else in Jakarta Pusat.
   */
  function StartingArea(selected: seq<Selected>): (a: Area)
    ensures a != Unknown
    ensures selected != [] && AreaFromLocation(EntryLocation(selected[0])) != Unknown ==>
              a == AreaFromLocation(EntryLocation(selected[0]))
    ensures (selected == [] || AreaFromLocation(EntryLocation(selected[0])) == Unknown) ==> a == Pusat
  {
    if selected != [] && AreaFromLocation(EntryLocation(selected[0])) != Unknown then AreaFromLocation(EntryLocation(selected[0]))
    else Pusat
  }

  /** What `optimizeRouteByLocation` returns (Route.OptimizeRoute computes it). */
  function RouteOf(ps: seq<Place>, start: Option<Area>): seq<Place>
  {
    if |ps| <= 1 then ps else Route.Flatten(Route.AreaKey, ps, Route.Walk(Route.AreaKey, ps, Route.StartArea(Route.AreaKey, ps, start), {}))
  }

  /** The start time text: `preferences.startTime || '09:00'`. */
  function StartText(prefs: Prefs): string
  {
    if prefs.startTime == "" then "09:00" else prefs.startTime
  }

  /** The trip title: Weekend, Setengah Hari (half a day) or Full Day, with the start and end times. */
  function Title(prefs: Prefs, endH: nat, endM: nat): string
  {
    var span := " (" + StartText(prefs) + " - " + FormatTime(endH, endM) + ")";
    if prefs.duration == "weekend" then "Trip Jakarta - Weekend" + span
    else "Trip Jakarta - " + (if prefs.duration == "half-day" then "Setengah Hari" else "Full Day") + span
  }

  /** The passes after the scheduler: fallback day, second item, transport notes, sort by time. */
  function Finish(items: seq<Item>, startH: nat, startM: nat, transport: string): (r: seq<Item>)
    ensures |r| >= 2
  {
    SortByTime(WithTransportNotes(WithSecondItem(WithFallback(items, startH, startM)), transport))
  }

  /** The areas of the items, without unknown ones and repeats, in order of first appearance. */
  function AreasVisited(items: seq<Item>): seq<Area>
  {
    Unique(KnownAreas(items))
  }

  function KnownAreas(items: seq<Item>): (r: seq<Area>)
    ensures forall a :: a in r <==> a != Unknown && exists i :: 0 <= i < |items| && items[i].area == a
  {
    if items == [] then []
    else
      var rest := KnownAreas(items[1..]);
      assert forall i :: 0 < i < |items| ==> items[i] == items[1..][i - 1];
      (if items[0].area != Unknown then [items[0].area] else []) + rest
  }

  /** The categories of the places whose ids were used, without repeats. */
  function UsedCategories(trip: seq<Place>, used: seq<string>): seq<Value>
  {
    Unique(CategoriesOf(Filter(trip, UsedBy(used))))
  }

  /** `d => usedDestinations.has(d.id)`. */
  function UsedBy(used: seq<string>): Place -> bool
  {
    (p: Place) => p.id in used
  }

  function CategoriesOf(ps: seq<Place>): (r: seq<Value>)
    ensures |r| == |ps| && forall i :: 0 <= i < |ps| ==> r[i] == ps[i].category
  {
    if ps == [] then [] else [ps[0].category] + CategoriesOf(ps[1..])
  }

  /** The plan of the day for a trip and the start reading. */
  function PlanOf(prefs: Prefs, trip: seq<Place>, startH: nat, startM: nat): Plan
  {
    Plan(PaceOf(prefs.travelStyle, prefs.transportMethod), prefs.transportMethod, Filter(trip, Culinary()),
         startH, startM, EndTimeMinutes(startH, startM, prefs.duration))
  }

  /** The day the scheduler plans for a selected trip. */
  function DayOf(prefs: Prefs, selected: seq<Selected>, trip: seq<Place>, startH: nat, startM: nat): Day
  {
    Schedule(PlanOf(prefs, trip, startH, startM), RouteOf(Filter(trip, Not(Culinary())), Some(StartingArea(selected))))
  }

  /** The rundown built from a trip and its scheduled day. */
  function Summary(prefs: Prefs, trip: seq<Place>, d: Day, startH: nat, startM: nat): Rundown
  {
    var items := Finish(d.items, startH, startM, prefs.transportMethod);
    var budget := BudgetEstimate(trip, d.used, items, prefs.transportMethod, prefs.mealPreference);
    var (endH, endM) := EndClock(startH, startM, prefs.duration);
    Rundown(Title(prefs, endH, endM), items, BudgetText(budget.0, budget.1), prefs,
            Some(TripDetails(if |d.used| < 1 then 1 else |d.used|, UsedCategories(trip, d.used), AreasVisited(items), AreaChanges(items))),
            None)
  }

  /**
   * `generateRundown(preferences)` for the trip list and the catalog;
   * `available` is the number of categories on offer. The start time is
   * written as `HH:MM`. A day whose scheduler threw is replaced by the error
   * rundown.
   */
  function GenerateRundown(prefs: Prefs, selected: seq<Selected>, all: seq<Catalog>, available: nat): Rundown
    requires StartClock(prefs.startTime).Some?
  {
    var (startH, startM) := StartClock(prefs.startTime).value;
    match Select(prefs, selected, all, available)
    case Throws(f) => ErrorRundown(prefs, f)
    case Ok(trip) =>
      var d := DayOf(prefs, selected, trip, startH, startM);
      if d.threw then ErrorRundown(prefs, CategoryFault) else Summary(prefs, trip, d, startH, startM)
  }

  /** Candidate selection run with the padding loop. */
  method SelectTrip(prefs: Prefs, selected: seq<Selected>, all: seq<Catalog>, available: nat) returns (trip: Result<seq<Place>>)
    ensures trip == Select(prefs, selected, all, available)
  {
    var t := Normalise(selected);
    var target := TargetCount(prefs.travelStyle, prefs.duration);
    if |t| < target {
      var pool := Pool(prefs, t, all, available, target);
      if pool.Throws? {
        return Throws(pool.fault);
      }
      t := AppendCandidates(t, pool.value, target);
    }
    trip := Ok(EnsureCulinary(t, all));
  }

  /** The route and the scheduler run for a selected trip. */
  method PlanDay(prefs: Prefs, selected: seq<Selected>, trip: seq<Place>, startH: nat, startM: nat) returns (d: Day)
    ensures d == DayOf(prefs, selected, trip, startH, startM)
  {
    var regular := Filter(trip, Not(Culinary()));
    var route := Route.OptimizeRoute(regular, Some(StartingArea(selected)));
    assert route == RouteOf(regular, Some(StartingArea(selected)));
    d := RunSchedule(PlanOf(prefs, trip, startH, startM), route);
  }

  /** The final passes, the budget loops and the summary. */
  method Summarise(prefs: Prefs, trip: seq<Place>, d: Day, startH: nat, startM: nat) returns (r: Rundown)
    ensures r == Summary(prefs, trip, d, startH, startM)
  {
    var items := Finish(d.items, startH, startM, prefs.transportMethod);
    var text := EstimateBudget(trip, d.used, items, prefs.transportMethod, prefs.mealPreference);
    var changes := CountAreaChanges(items);
    var (endH, endM) := EndClock(startH, startM, prefs.duration);
    r := Rundown(Title(prefs, endH, endM), items, text, prefs,
                 Some(TripDetails(if |d.used| < 1 then 1 else |d.used|, UsedCategories(trip, d.used), AreasVisited(items), changes)),
                 None);
  }

  /** `generateRundown` run step by step. */
  method Generate(prefs: Prefs, selected: seq<Selected>, all: seq<Catalog>, available: nat) returns (r: Rundown)
    requires StartClock(prefs.startTime).Some?
    ensures r == GenerateRundown(prefs, selected, all, available)
  {
    var (startH, startM) := StartClock(prefs.startTime).value;
    var trip := SelectTrip(prefs, selected, all, available);
    if trip.Throws? {
      r := ErrorRundown(prefs, trip.fault);
    } else {
      var d := PlanDay(prefs, selected, trip.value, startH, startM);
      if d.threw {
        r := ErrorRundown(prefs, CategoryFault);
      } else {
        r := Summarise(prefs, trip.value, d, startH, startM);
      }
    }
  }

  /**
   * The error rundown is returned exactly when selection throws or the
   * scheduled day threw; it has no items and "N/A" as budget, and carries
   * the exception: selection's, which needs an environment answer other
   * than empty or `both` or a priority that reads descriptions, or the
   * scheduler's, which needs a routed place of the trip whose category is a
   * truthy non-string.
   */
  lemma GenerateError(prefs: Prefs, selected: seq<Selected>, all: seq<Catalog>, available: nat)
    requires StartClock(prefs.startTime).Some?
    ensures var r := GenerateRundown(prefs, selected, all, available);
            var s := Select(prefs, selected, all, available);
            var (startH, startM) := StartClock(prefs.startTime).value;
            && (r.error.Some? <==> s.Throws? || DayOf(prefs, selected, s.value, startH, startM).threw)
            && (r.error.Some? ==> r.itinerary == [] && r.budgetEstimation == "N/A" && r.details.None?)
            && (s.Throws? ==> r.error == Some(s.fault) && SelectionFault(prefs, s.fault))
            && (s.Ok? && DayOf(prefs, selected, s.value, startH, startM).threw ==>
                  r.error == Some(CategoryFault) && exists p :: p in s.value && !IsKuliner(p) && CategoryThrows(p.category))
  {
    var (startH, startM) := StartClock(prefs.startTime).value;
    SelectShape(prefs, selected, all, available);
    var s := Select(prefs, selected, all, available);
    if s.Ok? {
      var trip := s.value;
      var regular := Filter(trip, Not(Culinary()));
      var route := RouteOf(regular, Some(StartingArea(selected)));
      ScheduleGuarantees(PlanOf(prefs, trip, startH, startM), route);
      if DayOf(prefs, selected, trip, startH, startM).threw {
        var p :| p in route && CategoryThrows(p.category);
        RouteKeepsIds(regular, Some(StartingArea(selected)), p);
        var q :| q in regular && q.id == p.id && q.category == p.category;
        FilterMembers(trip, Not(Culinary()));
        assert q in trip && !IsKuliner(q);
      }
    }
  }

  /**
   * No trip-list entry and no catalog record holds a truthy non-string
   * category, and no catalog record a truthy non-string setting or description.
   */
  predicate Clean(selected: seq<Selected>, all: seq<Catalog>)
  {
    && (forall s :: s in selected ==> !CategoryThrows(s.category))
    && (forall k :: k in all ==> !BadSetting(k) && !BadDescription(k) && !CategoryThrows(k.category))
  }

  /** A selected place with a category that throws comes from a trip-list entry or catalog record holding it. */
  lemma SourcedCategory(p: Place, selected: seq<Selected>, all: seq<Catalog>)
    requires Sourced(p, selected, all) && CategoryThrows(p.category)
    ensures !Clean(selected, all)
  {
    if p in Candidates(all) {
      CandidateOf(all, p);
    }
  }

  /** Over clean data, `generateRundown` never reaches its `catch` block. */
  lemma GenerateClean(prefs: Prefs, selected: seq<Selected>, all: seq<Catalog>, available: nat)
    requires StartClock(prefs.startTime).Some?
    ensures Clean(selected, all) ==> GenerateRundown(prefs, selected, all, available).error.None?
  {
    GenerateError(prefs, selected, all, available);
    SelectThrows(prefs, selected, all, available);
    SelectSources(prefs, selected, all, available);
    var s := Select(prefs, selected, all, available);
    var (startH, startM) := StartClock(prefs.startTime).value;
    if s.Ok? && DayOf(prefs, selected, s.value, startH, startM).threw {
      var p :| p in s.value && !IsKuliner(p) && CategoryThrows(p.category);
      SourcedCategory(p, selected, all);
    }
  }

  /**
   * A summary has at least two items in time order, holding exactly the
   * items of the finished day, a budget text whose first figure reads back
   * as a low end of at least 170 000, and a destination count of at least one.
   */
  lemma SummaryShape(prefs: Prefs, trip: seq<Place>, d: Day, startH: nat, startM: nat)
    ensures var r := Summary(prefs, trip, d, startH, startM);
            var day := WithTransportNotes(WithSecondItem(WithFallback(d.items, startH, startM)), prefs.transportMethod);
            && r.error.None? && r.details.Some?
            && |r.itinerary| >= 2
            && SortedByTime(r.itinerary)
            && multiset(r.itinerary) == multiset(day)
            && r.details.value.destinationCount >= 1
            && r.details.value.areaChanges <= |r.itinerary| - 1
            && PriceRun(r.budgetEstimation) >= 170000
  {
    var day := WithTransportNotes(WithSecondItem(WithFallback(d.items, startH, startM)), prefs.transportMethod);
    SortByTimeSorts(day);
    var items := Finish(d.items, startH, startM, prefs.transportMethod);
    AreaChangesBounds(items);
    var budget := BudgetEstimate(trip, d.used, items, prefs.transportMethod, prefs.mealPreference);
    BudgetTextLow(budget.0, budget.1);
  }

  /** A generated rundown without error has the shape of a summary. */
  lemma GenerateShape(prefs: Prefs, selected: seq<Selected>, all: seq<Catalog>, available: nat)
    requires StartClock(prefs.startTime).Some?
    ensures var r := GenerateRundown(prefs, selected, all, available);
            r.error.None? ==>
              && r.details.Some?
              && |r.itinerary| >= 2
              && SortedByTime(r.itinerary)
              && r.details.value.destinationCount >= 1
              && PriceRun(r.budgetEstimation) >= 170000
  {
    var (startH, startM) := StartClock(prefs.startTime).value;
    var s := Select(prefs, selected, all, available);
    if s.Ok? {
      var trip := s.value;
      var d := DayOf(prefs, selected, trip, startH, startM);
      if !d.threw {
        assert GenerateRundown(prefs, selected, all, available) == Summary(prefs, trip, d, startH, startM);
        SummaryShape(prefs, trip, d, startH, startM);
      }
    }
  }

  /**
   * The generated day never schedules a destination twice: the used ids are
   * pairwise distinct, the destination count is their number, every one
   * belongs to a place of the trip, and the day keeps its one lunch, so the
   * fallback day is never used.
   */
  lemma GenerateUsesTripOnce(prefs: Prefs, selected: seq<Selected>, all: seq<Catalog>, available: nat)
    requires StartClock(prefs.startTime).Some?
    requires Select(prefs, selected, all, available).Ok?
    ensures var (startH, startM) := StartClock(prefs.startTime).value;
            var trip := Select(prefs, selected, all, available).value;
            var d := DayOf(prefs, selected, trip, startH, startM);
            && Distinct(d.used)
            && (forall x :: x in d.used ==> HasId(trip, x))
            && d.items != []
            && WithFallback(d.items, startH, startM) == d.items
  {
    var (startH, startM) := StartClock(prefs.startTime).value;
    var trip := Select(prefs, selected, all, available).value;
    var plan := PlanOf(prefs, trip, startH, startM);
    var regular := Filter(trip, Not(Culinary()));
    FilterMembers(trip, Not(Culinary()));
    FilterMembers(trip, Culinary());
    var route := RouteOf(regular, Some(StartingArea(selected)));
    ScheduleGuarantees(plan, route);
    var d := Schedule(plan, route);
    forall x | x in d.used
      ensures HasId(trip, x)
    {
      if HasId(plan.culinary, x) {
        var p :| p in plan.culinary && p.id == x;
        assert p in trip;
      } else {
        var p :| p in route && p.id == x;
        RouteKeepsIds(regular, Some(StartingArea(selected)), p);
        var q :| q in regular && q.id == x;
        assert q in trip;
      }
    }
  }

  /** Every place of the route is a place of the input with its area set: its id and category are an input's. */
  lemma RouteKeepsIds(ps: seq<Place>, start: Option<Area>, p: Place)
    requires p in RouteOf(ps, start)
    ensures exists q :: q in ps && q.id == p.id && q.category == p.category
  {
    if |ps| > 1 {
      Route.OptimizedRoutePermutes(Route.AreaKey, ps, start);
      var t := Route.TagAll(Route.AreaKey, ps);
      assert p in multiset(t);
      var i :| 0 <= i < |t| && t[i] == p;
      assert ps[i].id == p.id && ps[i].category == p.category;
    }
  }
}
