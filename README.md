# Jakarta-Go trip planner, modelled in Dafny

Jakarta-Go is a travel web application for Jakarta. Its core is the rundown
generator: from a questionnaire (duration, travel style, categories,
environment, budget, priority, meal preference, transport, start time), the
destinations the user put in "Your Trip" and the destination catalog, it

1. pads the trip towards a target count with catalog destinations filtered by
   category, setting and budget and ordered by priority, and adds a culinary
   place when there is none;
2. orders the places by area of Jakarta (a greedy walk over the five city
   areas, keyword-based area detection and a distance matrix);
3. schedules one day stage by stage (breakfast, morning block, snack or buffer,
   lunch, afternoon block, snack, evening visit, buffer, dinner, final visit)
   on a clock that wraps at midnight, with travel times by area distance and
   transport;
4. finishes the day (fallback day, second item, transport notes, sort by
   time) and estimates a budget range in rupiah.

Around the engine, the model covers the helpers that read and write rundowns
(budget texts, price parsing, normalising saved itineraries, the save dialog),
the "Your Trip" popup, the "Add to Trip" button, the recommendation page
(review aggregation, star ratings, filter and pagination), the destination
detail page (rating statistics, the reviews shown, submitting a review) and
the home page carousel.

The model is organised as one module per concern:

| module | file | models |
|---|---|---|
| JsValues | js_values.dfy | JavaScript values (`undefined`, numbers, strings), truthiness, `||`, lower-casing, `includes`, trimming, digit strings and thousands grouping |
| Lists | lists.dfy | `filter`, `find`, `some` over sequences and their laws |
| Records | records.dfy | JavaScript objects as maps from field names to values |
| Prices | prices.dfy | price texts: extracting digits, `parseInt`, the `Rp a - b/pax` range texts |
| Geography | geography.dfy | `getAreaFromLocation`, `getAreaDistance` |
| Route | route.dfy | `optimizeRouteByLocation` |
| Preferences | preferences.dfy | `handleOptionSelect` on the questionnaire answers |
| Places | places.dfy | the places the engine schedules and their defaults |
| Selection | selection.dfy | the target count, padding, filters, priority sort, culinary place |
| Clock | clock.dfy | `addTime`, `formatTime`, start and end readings |
| Transit | transit.dfy | the style table and `getTransportTimeForDestinations` |
| Itinerary | itinerary.dfy | itinerary items and the passes after scheduling |
| Scheduler | scheduler.dfy | the day scheduler, stage by stage |
| Budget | budget.dfy | the budget estimate of a generated rundown |
| Generator | generator.dfy | `generateRundown` end to end |
| RundownUtils | rundown_utils.dfy | `src/Components/utils/rundownUtils.jsx` |
| SaveRundown | save_rundown.dfy | the save dialog of `SaveRundownModel.jsx` |
| RundownDetail | rundown_detail.dfy | the helpers of `RundownDetailPage.jsx` |
| Ordering | ordering.dfy | a stable sort, highest key first |
| YourTrip | your_trip.dfy | the "Your Trip" popup of `YourTrip.jsx` |
| AddToTrip | add_to_trip.dfy | `AddToTripButton.jsx` |
| Rekomendasi | rekomendasi.dfy | the recommendation page `Rekomendasi.jsx` |
| DestinationDetail | destination_detail.dfy | the detail page `DestinationDetail.jsx` |
| Carousel | carousel.dfy | `DestinationCarousel.jsx` |

Pure code (the engine's helpers, price and text functions, filters) is
modelled as functions with lemmas; loops (the route optimiser's grouping and
walk, the padding loop, the scheduler's blocks, the budget loops, the review
aggregation, the rating statistics, the pagination window) as methods with
loop invariants proved equal to those functions; and components whose state
changes (the popup, the button, the pages, the carousel, the save dialog) as
classes whose methods state their new state.

JavaScript objects are maps from field names to values; `undefined` is
`VNone`. An exception the source would throw (a `TypeError` from calling a
string method on a non-string) is `None` of an `Option` result; in the
itinerary engine it is `Throws` of a `Places.Result`, which names the
`Places.Fault`, that is, which `toLowerCase` call failed, and a day during
which `getCategoryEmoji` threw is marked `threw`. Amounts of
money with a factor 1.1, 1.2 or 1.5 are kept in tenths of a rupiah so that
no floating point is needed.

## Model

| member | source | states |
|---|---|---|
| Geography.KeywordHitMeans | src/Components/YourTripComponents/RundownGenerator.jsx:55-59 | the inner keyword loop hits exactly when some keyword of the row, lower-cased, occurs in the lower-cased location |
| Geography.FirstMentionedIsFirst | src/Components/YourTripComponents/RundownGenerator.jsx:54-62 | the scan over the area table returns UNKNOWN exactly when no row is mentioned, and otherwise the area of the first mentioned row in table order |
| Geography.AreaFromLocation | src/Components/YourTripComponents/RundownGenerator.jsx:40-63 | only a non-empty string location can be filed under a known area |
| Geography.AreaFromLocationFirstMatch | src/Components/YourTripComponents/RundownGenerator.jsx:40-63 | a missing, empty or non-string location is UNKNOWN; any other is the first area, in table order, one of whose keywords occurs in it ignoring case, or UNKNOWN when none does |
| Geography.AreaDistance | src/Components/YourTripComponents/RundownGenerator.jsx:66-80 | two areas are 0 apart exactly when they are the same; two known areas are at most 4 apart; a missing area against a different one is 3 |
| Geography.AreaDistanceSymmetric | src/Components/YourTripComponents/RundownGenerator.jsx:70-77 | the distance matrix is symmetric |
| Route.KeysGroup | src/Components/YourTripComponents/RundownGenerator.jsx:88-97 | an area is a key of the grouping exactly when its group is non-empty, exactly when some input place is filed under it |
| Route.KeysDistinct | src/Components/YourTripComponents/RundownGenerator.jsx:88-97 | the keys of the grouping are pairwise distinct |
| Route.GroupByArea | src/Components/YourTripComponents/RundownGenerator.jsx:87-97 | the grouping loop yields the areas in order of first occurrence and, for each, its tagged places in input order |
| Route.LargestArea | src/Components/YourTripComponents/RundownGenerator.jsx:99-106 | the reduce over the keys picks the start area of the reference definition |
| Route.ReduceMaxIsLargest | src/Components/YourTripComponents/RundownGenerator.jsx:103-105 | without a start area the walk starts in a key whose group is at least as large as every other |
| Route.ReduceMaxIsLast | src/Components/YourTripComponents/RundownGenerator.jsx:103-105 | among keys with the largest group the reduce keeps the last one |
| Route.FindNextBest | src/Components/YourTripComponents/RundownGenerator.jsx:112-132 | the scan returns the next area of the reference definition |
| Route.BestOfCandidate | src/Components/YourTripComponents/RundownGenerator.jsx:116-129 | a picked area is unvisited and has places, and no area is picked exactly when no such area exists |
| Route.BestOfIsMinimum | src/Components/YourTripComponents/RundownGenerator.jsx:119-128 | the picked area's score (distance minus half its place count) is no worse than any candidate's |
| Route.BestOfIsFirst | src/Components/YourTripComponents/RundownGenerator.jsx:125-128 | on ties the first candidate in key order is picked: every candidate before it scores strictly worse |
| Route.GuardMeans | src/Components/YourTripComponents/RundownGenerator.jsx:135 | the loop guard holds exactly when some area with places has not been visited |
| Route.VisitOne | src/Components/YourTripComponents/RundownGenerator.jsx:136-155 | one pass of the loop appends the current group if unvisited, then either moves to the next best area with a smaller measure or flushes the remaining groups |
| Route.FlushRemaining | src/Components/YourTripComponents/RundownGenerator.jsx:148-153 | the flush appends the groups of every unvisited area, in key order |
| Route.RemainingCovers | src/Components/YourTripComponents/RundownGenerator.jsx:148-153 | the flush visits every key not yet visited, each once, and nothing else |
| Route.WalkCovers | src/Components/YourTripComponents/RundownGenerator.jsx:135-156 | the walk visits every area not yet visited exactly once and nothing else |
| Route.VisitAreas | src/Components/YourTripComponents/RundownGenerator.jsx:135-156 | the loop builds the route of the reference walk from the start area |
| Route.OptimizeRouteBy | src/Components/YourTripComponents/RundownGenerator.jsx:83-159 | zero or one place is returned unchanged; otherwise the route is the groups of the walk from the start area, one after the other |
| Route.OptimizeRoute | src/Components/YourTripComponents/RundownGenerator.jsx:83-159 | the same, with places filed by the area of `original?.location` or else `location` |
| Route.GroupCount | src/Components/YourTripComponents/RundownGenerator.jsx:88-97 | a group holds each tagged place of its area as often as the input does, and nothing of another area |
| Route.FlattenCount | src/Components/YourTripComponents/RundownGenerator.jsx:138-150 | appending the groups of distinct areas counts each place once, within the group of its own area |
| Route.FlattenPermutes | src/Components/YourTripComponents/RundownGenerator.jsx:138-150 | appending the groups of every key once each gives a permutation of the tagged input |
| Route.OptimizedRoutePermutes | src/Components/YourTripComponents/RundownGenerator.jsx:83-159 | the route holds every input place, tagged with its area, exactly as often as the input does |
| Route.GroupIsAreaFilter | src/Components/YourTripComponents/RundownGenerator.jsx:88-97 | a group is the tagged input filtered to its area: input order is kept |
| Route.FlattenAreaFilter | src/Components/YourTripComponents/RundownGenerator.jsx:135-156 | filtering the appended groups of distinct areas to one area gives that area's group, or nothing |
| Route.OptimizedRouteKeepsAreaOrder | src/Components/YourTripComponents/RundownGenerator.jsx:83-159 | for every area, the route lists its places in the order they had in the input |
| Route.FlattenAreas | src/Components/YourTripComponents/RundownGenerator.jsx:138-150 | every place of the appended groups carries one of the walk's areas |
| Route.FlattenContiguous | src/Components/YourTripComponents/RundownGenerator.jsx:138-150 | in the appended groups of distinct areas, the places of one area form one block |
| Route.OptimizedRouteContiguous | src/Components/YourTripComponents/RundownGenerator.jsx:83-159 | in the route, the places of each area form one contiguous block |
| Preferences.SelectOption | src/Components/YourTripComponents/RundownGenerator.jsx:380-405 | the answer to the question is replaced (radio) or its checkbox list toggled; every other answer is kept and no other question is added |
| Preferences.ToggleFlips | src/Components/YourTripComponents/RundownGenerator.jsx:384-396 | after a checkbox toggle the value is ticked exactly when it was not, and every other value keeps its state |
| Preferences.ToggleTwice | src/Components/YourTripComponents/RundownGenerator.jsx:384-396 | ticking a value not yet ticked and then unticking it gives the list back |
| Places.FromSelected | src/Components/YourTripComponents/RundownGenerator.jsx:524-532 | a trip-list entry keeps its id and gets a non-empty label (label, else name, else `Unnamed Destination`), a truthy category and a truthy price, keeping a label, a category and a price it had, and keeps its location, setting and attached catalog record (`original`) as the spread does |
| Places.CatalogPrice | src/Components/YourTripComponents/RundownGenerator.jsx:559 | a catalog price becomes the text `Rp <price>` when truthy and `Free` otherwise |
| Places.FromCatalog | src/Components/YourTripComponents/RundownGenerator.jsx:556-564 | a catalog record becomes a candidate with its id, its record as `original`, a price text, and a truthy category (its own when truthy), setting and location |
| Places.Description | src/Components/YourTripComponents/RundownGenerator.jsx:654 | the description the priority sort lower-cases is the catalog record's when truthy, else the empty string |
| Places.CategoryEmoji | src/Components/YourTripComponents/RundownGenerator.jsx:1670-1698 | `getCategoryEmoji` throws exactly for a truthy non-string category, gives the pin for a falsy one, and otherwise the emoji of the lower-cased category |
| Places.CulinaryFromCatalog | src/Components/YourTripComponents/RundownGenerator.jsx:723-730 | the injected culinary place has the record's id, category `Kuliner` and the record as `original` |
| Places.VisitLocation | src/Components/YourTripComponents/RundownGenerator.jsx:962 | with a non-empty fallback the location the scheduler writes is always truthy |
| Places.Ids | src/Components/YourTripComponents/RundownGenerator.jsx:569 | the ids of the places, one per place, in order |
| Selection.TargetCount | src/Components/YourTripComponents/RundownGenerator.jsx:537-547 | the target is 2, 3 or 5 for a relaxed style, 4, 6 or 10 for an intensive one and 3, 4 or 8 otherwise, by half day, full day or any other duration |
| Selection.TargetMonotone | src/Components/YourTripComponents/RundownGenerator.jsx:537-547 | a longer trip never aims for fewer destinations and a busier style never for fewer |
| Selection.Candidates | src/Components/YourTripComponents/RundownGenerator.jsx:556-564 | the padding candidates are the catalog records, each normalised, in catalog order |
| Selection.EnvFilter | src/Components/YourTripComponents/RundownGenerator.jsx:593-601 | with an empty or `both` answer nothing is filtered; otherwise the filter throws, with the environment fault, exactly when some candidate's setting is a truthy non-string, and else keeps the candidates with no setting, `both`, or the chosen one ignoring case |
| Selection.BudgetFilterApplied | src/Components/YourTripComponents/RundownGenerator.jsx:606-641 | the budget filter keeps the list or narrows it to the places in the chosen price band; it narrows exactly when a budget was given, there are more candidates than the target and at least half the target (rounded up) survives |
| Selection.PartitionSorts | src/Components/YourTripComponents/RundownGenerator.jsx:650-696 | the priority sort is a permutation that puts every matching place before every other and keeps the order within each class |
| Selection.PrioritySortPermutes | src/Components/YourTripComponents/RundownGenerator.jsx:647-697 | the priority sort throws, with the description fault, exactly when its comparator reads descriptions (`photo`, `relax`, `activities`), there are at least two candidates and one has a truthy non-string description; otherwise it only reorders, puts every keyed place first, and keeps the order for `experience` or an unknown priority |
| Selection.Fill | src/Components/YourTripComponents/RundownGenerator.jsx:700-710 | padding never shortens the trip, leaves a trip at or over target alone and never pads past the target |
| Selection.FillPrefix | src/Components/YourTripComponents/RundownGenerator.jsx:700-710 | padding keeps the trip as a prefix, leaves a trip at or over target alone and never pads past the target |
| Selection.FillFresh | src/Components/YourTripComponents/RundownGenerator.jsx:700-704 | padding appends only candidates whose ids are new, and no two with the same id |
| Selection.FillExhausts | src/Components/YourTripComponents/RundownGenerator.jsx:700-710 | padding that ends below target has taken every candidate with a new id |
| Selection.IdSet | src/Components/YourTripComponents/RundownGenerator.jsx:569 | the set of existing ids holds exactly the ids of the trip |
| Selection.AppendCandidates | src/Components/YourTripComponents/RundownGenerator.jsx:700-710 | the padding loop computes the padding of the reference definition |
| Selection.EnsureCulinary | src/Components/YourTripComponents/RundownGenerator.jsx:715-741 | the result always has a culinary place; a trip that has one is unchanged, otherwise exactly one place is appended: the first culinary catalog record or, without one, the stand-in `dummy-culinary` |
| Selection.Normalise | src/Components/YourTripComponents/RundownGenerator.jsx:524-532 | every trip-list entry with its defaults, in order |
| Selection.Pool | src/Components/YourTripComponents/RundownGenerator.jsx:556-697 | building the candidate pool throws only with the environment fault under an environment answer other than empty or `both`, or with the description fault under a priority that reads descriptions |
| Selection.PoolFresh | src/Components/YourTripComponents/RundownGenerator.jsx:556-697 | every padding candidate is a catalog place whose id is not in the trip, and the pool throws only as `Selection.Pool` states |
| Selection.CandidateOf | src/Components/YourTripComponents/RundownGenerator.jsx:556-564 | a padding candidate is made from a catalog record, and has a throwing setting, description or category only when that record does |
| Selection.PoolThrows | src/Components/YourTripComponents/RundownGenerator.jsx:593-697 | the environment fault needs a catalog record with a truthy non-string setting, the description fault one with a truthy non-string description |
| Selection.Pad | src/Components/YourTripComponents/RundownGenerator.jsx:551-711 | a trip at or over target is not padded, and padding throws only as the pool does |
| Selection.PadShape | src/Components/YourTripComponents/RundownGenerator.jsx:551-711 | padding keeps the trip as a prefix, stays within the target or leaves a trip at or over it alone, and adds only catalog places with new, pairwise different ids; it throws only for a catalog record with a bad setting or description under the answers that read them |
| Selection.Select | src/Components/YourTripComponents/RundownGenerator.jsx:521-741 | selection throws only with the environment fault under an environment answer other than empty or `both`, or with the description fault under a priority that reads descriptions |
| Selection.SelectThrows | src/Components/YourTripComponents/RundownGenerator.jsx:551-711 | an exception of selection is that of padding, and comes from a catalog record with a truthy non-string setting or description |
| Selection.SelectShape | src/Components/YourTripComponents/RundownGenerator.jsx:521-741 | the user's own destinations come first and in order, a culinary place is present, and at most one place lies beyond the larger of the trip list and the target; selection throws only as `Selection.SelectThrows` and `Selection.Select` state |
| Selection.SelectSources | src/Components/YourTripComponents/RundownGenerator.jsx:521-741 | every selected place is a normalised trip-list entry, a padding candidate, or the injected culinary place |
| Clock.AddTime | src/Components/YourTripComponents/RundownGenerator.jsx:815-824 | the minutes stay below 60; the reading moves forward by exactly the added time, less a day when the hour reaches 24 |
| Clock.AddTimeOnDial | src/Components/YourTripComponents/RundownGenerator.jsx:815-824 | from a time on the dial, adding at most a day keeps the hour below 24 and the minute below 60 |
| Clock.AddTimePastMidnight | src/Components/YourTripComponents/RundownGenerator.jsx:815-824 | half an hour after 23:45 the clock reads 00:15, earlier than 23:45 |
| Clock.AddTimeForward | src/Components/YourTripComponents/RundownGenerator.jsx:815-824 | an addition that stays before midnight moves the clock forward by exactly that much |
| Clock.Pad2 | src/Components/YourTripComponents/RundownGenerator.jsx:812 | a padded field is a non-empty digit string |
| Clock.FormatTimeShape | src/Components/YourTripComponents/RundownGenerator.jsx:812 | a time with fields below 100 is written as two digits, a colon and two digits |
| Clock.ParseFormatTime | src/Components/YourTripComponents/RundownGenerator.jsx:1513-1515 | reading a formatted time back with `split(':').map(Number)` gives the hour and minute that were formatted |
| Clock.StartClockDefault | src/Components/YourTripComponents/RundownGenerator.jsx:746-749 | an empty start time starts the day at 09:00 |
| Clock.TripHours | src/Components/YourTripComponents/RundownGenerator.jsx:752-760 | the trip lasts 5 hours for half a day, 20 for a weekend and 10 otherwise |
| Clock.EndClock | src/Components/YourTripComponents/RundownGenerator.jsx:762-769 | the end keeps the start minute; for a start hour below 24 the end hour is on the dial and is the start plus the trip length, less 24 when it overflows |
| Clock.EndTimeIsStartPlusLength | src/Components/YourTripComponents/RundownGenerator.jsx:762-769 | for a start hour below 24, the end minute lies exactly the trip length after the start |
| Transit.PaceOf | src/Components/YourTripComponents/RundownGenerator.jsx:833-849 | the activity, transit and meal minutes and the activities per block of each style, transit 10 minutes longer without private transport |
| Transit.PaceOrder | src/Components/YourTripComponents/RundownGenerator.jsx:833-849 | a more relaxed style never has shorter activities, transits or meals, nor more activities per block |
| Transit.Extra | src/Components/YourTripComponents/RundownGenerator.jsx:861-870 | the extra travel is 10 minutes per area of distance, at most 30 |
| Transit.ScaledRounds | src/Components/YourTripComponents/RundownGenerator.jsx:873-886 | the scaled minutes are the product with 1, 1.5 or 1.2 rounded half up |
| Transit.RideSharingNoTie | src/Components/YourTripComponents/RundownGenerator.jsx:882-886 | ride-sharing times never fall on a rounding tie |
| Transit.TransitTime | src/Components/YourTripComponents/RundownGenerator.jsx:852-887 | without a current or a next stop the travel time is the style's base time |
| Transit.TransitBounds | src/Components/YourTripComponents/RundownGenerator.jsx:852-887 | travel takes at least the base time and at most the scaled base plus 30 minutes; within one area it is the scaled base |
| Transit.ScaledMonotone | src/Components/YourTripComponents/RundownGenerator.jsx:873-886 | scaling never shortens a time and keeps the order of times |
| Transit.TransitMonotone | src/Components/YourTripComponents/RundownGenerator.jsx:852-887 | a stop in a farther area never takes less travel time |
| Transit.TransitSymmetric | src/Components/YourTripComponents/RundownGenerator.jsx:852-887 | travel time is the same in both directions |
| Itinerary.TimeTextKey | src/Components/YourTripComponents/RundownGenerator.jsx:1512-1516 | the sort key computed from an item's `time` text is always defined and equals the item's minute of the day |
| Itinerary.FallbackDay | src/Components/YourTripComponents/RundownGenerator.jsx:1407-1454 | the fallback day has four items |
| Itinerary.WithFallback | src/Components/YourTripComponents/RundownGenerator.jsx:1407-1454 | an empty day becomes the four-item fallback day starting at the start time; any other day is kept |
| Itinerary.WithSecondItem | src/Components/YourTripComponents/RundownGenerator.jsx:1457-1474 | a one-item day gets a second, free-time item after its item; a longer day is kept |
| Itinerary.WithTransportNotes | src/Components/YourTripComponents/RundownGenerator.jsx:1477-1509 | only notes change; an item gets the transport note and the next area appended exactly when a transport answer was given, it is not the last item, the next item lies in another area and its notes mention neither `transport` nor `Grab` |
| Itinerary.TransportNotesLocal | src/Components/YourTripComponents/RundownGenerator.jsx:1495-1508 | the last item never gets a note, and a day spent entirely in Jakarta Pusat gets none |
| Itinerary.SortByTime | src/Components/YourTripComponents/RundownGenerator.jsx:1512-1516 | sorting keeps the number of items |
| Itinerary.SortByTimeSorts | src/Components/YourTripComponents/RundownGenerator.jsx:1512-1516 | the sorted day is in time order and holds exactly the items of the day |
| Itinerary.SortByTimeStable | src/Components/YourTripComponents/RundownGenerator.jsx:1512-1516 | items at the same minute keep their relative order |
| Scheduler.LunchClock | src/Components/YourTripComponents/RundownGenerator.jsx:1025-1029 | only the clock moves; between 11:00 and 12:00 it moves forward, to at most 12:00 |
| Scheduler.LunchPlace | src/Components/YourTripComponents/RundownGenerator.jsx:1031-1044 | the lunch place is an unused culinary place, and there is none exactly when every culinary place is used |
| Scheduler.LunchPlaceNear | src/Components/YourTripComponents/RundownGenerator.jsx:1031-1039 | in the lunch window with a current stop, lunch is at the first culinary place, in order, that is unused and lies in the current area |
| Scheduler.LunchPlaceFirstFree | src/Components/YourTripComponents/RundownGenerator.jsx:1041-1044 | outside the window, before the first stop, or with no unused place in the current area, lunch is at the first unused culinary place |
| Scheduler.DinnerClock | src/Components/YourTripComponents/RundownGenerator.jsx:1259-1263 | only the clock moves; between 17:00 and 18:00 it moves forward, to at most 18:00 |
| Scheduler.DinnerPlace | src/Components/YourTripComponents/RundownGenerator.jsx:1265-1282 | the dinner place is an unused culinary place other than the lunch item's place, and there is none exactly when no culinary place qualifies |
| Scheduler.DinnerPlaceNear | src/Components/YourTripComponents/RundownGenerator.jsx:1265-1274 | in the dinner window with a current stop, dinner is at the first culinary place that is unused, is not the lunch item's place and lies in the current area |
| Scheduler.DinnerPlaceFirstFree | src/Components/YourTripComponents/RundownGenerator.jsx:1276-1282 | otherwise, or with no such place in the current area, dinner is at the first culinary place that is unused and is not the lunch item's place |
| Scheduler.BlockUnroll | src/Components/YourTripComponents/RundownGenerator.jsx:939-985 | one turn of a block: it stops when the guard fails or no unused destination remains, and otherwise visits the first unused one and goes on |
| Scheduler.RunBlock | src/Components/YourTripComponents/RundownGenerator.jsx:939-985 | the morning and afternoon `while` loops compute the block of the reference definition |
| Scheduler.RunSchedule | src/Components/YourTripComponents/RundownGenerator.jsx:896-1403 | the scheduler run stage by stage computes the day of the reference definition |
| Scheduler.ExtendsTrans | src/Components/YourTripComponents/RundownGenerator.jsx:896-1403 | a stage that only appends, followed by another, only appends |
| Scheduler.StepTrans | src/Components/YourTripComponents/RundownGenerator.jsx:896-1403 | two stages that keep the invariant and only append make one such stage |
| Scheduler.PushStep | src/Components/YourTripComponents/RundownGenerator.jsx:907 | pushing one item and marking at most one fresh culinary or routed place used keeps the invariant, as long as an exception stays raised and a new one comes from a routed place |
| Scheduler.ServeMealStep | src/Components/YourTripComponents/RundownGenerator.jsx:1022-1111 | serving a meal at an unused culinary place keeps the invariant and pushes exactly one item |
| Scheduler.VisitStep | src/Components/YourTripComponents/RundownGenerator.jsx:965-982 | visiting an unused remaining destination keeps the invariant and pushes exactly one item; the day has thrown after it exactly when it had before or the destination's category makes `getCategoryEmoji` throw |
| Scheduler.BlockStep | src/Components/YourTripComponents/RundownGenerator.jsx:939-985 | a block keeps the invariant, adds one item and one used id per visit, at most the style's cap of visits, and gives no item a place id |
| Scheduler.BreakfastStep | src/Components/YourTripComponents/RundownGenerator.jsx:900-927 | breakfast keeps the invariant and pushes at most one item, with no place id |
| Scheduler.MorningBufferStep | src/Components/YourTripComponents/RundownGenerator.jsx:989-1020 | the snack or buffer before lunch uses no destination and pushes at most one item |
| Scheduler.AfternoonSnackStep | src/Components/YourTripComponents/RundownGenerator.jsx:1173-1192 | the afternoon snack uses no destination and pushes at most one item |
| Scheduler.LunchStep | src/Components/YourTripComponents/RundownGenerator.jsx:1022-1111 | lunch is always served: it keeps the invariant and pushes exactly one lunch item, with no place id |
| Scheduler.EveningStep | src/Components/YourTripComponents/RundownGenerator.jsx:1194-1244 | the evening visit keeps the invariant and pushes at most one item, with no place id |
| Scheduler.DinnerBufferStep | src/Components/YourTripComponents/RundownGenerator.jsx:1246-1251 | the buffer before dinner changes nothing but the clock |
| Scheduler.DinnerStep | src/Components/YourTripComponents/RundownGenerator.jsx:1253-1355 | dinner keeps the invariant and pushes at most one item |
| Scheduler.FinalStep | src/Components/YourTripComponents/RundownGenerator.jsx:1357-1403 | the final visit keeps the invariant, including that an exception comes from a routed place's category, and pushes at most one item |
| Scheduler.LunchPlaceIdNone | src/Components/YourTripComponents/RundownGenerator.jsx:1320 | when no item carries a place id, the dinner's test against the lunch place excludes nothing |
| Scheduler.BeforeDinnerGuarantees | src/Components/YourTripComponents/RundownGenerator.jsx:896-1251 | up to dinner the invariant holds, exactly one lunch has been pushed, no item carries a place id, and each block adds at most the style's cap of visits |
| Scheduler.ScheduleGuarantees | src/Components/YourTripComponents/RundownGenerator.jsx:896-1403 | the day never uses an id twice, uses only ids of culinary or routed places, and holds a lunch, so it is never empty; it has thrown only if some routed place's category is a truthy non-string |
| Budget.UsedPricesAppend | src/Components/YourTripComponents/RundownGenerator.jsx:1526-1548 | the summed price of the used destinations is additive over the trip |
| Budget.UsedPricesExtremes | src/Components/YourTripComponents/RundownGenerator.jsx:1526-1548 | when no destination was used the sum is 0, and when every one was used each adds its price |
| Budget.SumUsedPrices | src/Components/YourTripComponents/RundownGenerator.jsx:1526-1548 | the `forEach` loop sums the prices of the used destinations, the high end being 1.2 times the low end |
| Budget.AreaChangesBounds | src/Components/YourTripComponents/RundownGenerator.jsx:1551-1556 | there are at most as many area changes as legs, and none exactly when every item lies in the first item's area |
| Budget.CountAreaChanges | src/Components/YourTripComponents/RundownGenerator.jsx:1551-1556 | the loop counts the items whose area differs from the item before |
| Budget.TransportCost | src/Components/YourTripComponents/RundownGenerator.jsx:1558-1580 | every transport band costs at least 10 000 and its high end exceeds its low end |
| Budget.TripCountIsLegs | src/Components/YourTripComponents/RundownGenerator.jsx:1559 | the trip count, the larger of the legs and the area changes, is always the number of legs |
| Budget.CountMeals | src/Components/YourTripComponents/RundownGenerator.jsx:1583-1586 | no meal count exceeds the number of items |
| Budget.MealTable | src/Components/YourTripComponents/RundownGenerator.jsx:1588-1616 | in each meal table every meal's high price exceeds its low price |
| Budget.MealCost | src/Components/YourTripComponents/RundownGenerator.jsx:1588-1616 | the meal band charges at least one lunch and one dinner at the low table, and its high end exceeds its low end |
| Budget.EstimateBounds | src/Components/YourTripComponents/RundownGenerator.jsx:1618-1624 | the low end is at least 170 000 and the high end is at least 1.1 times the floored low end plus the incidentals, so at least 45 000 above the low end |
| Budget.EstimateFloor | src/Components/YourTripComponents/RundownGenerator.jsx:1618-1624 | a trip whose sums fall below the floor is estimated at exactly 170 000 to 230 000 |
| Budget.BudgetEstimate | src/Components/YourTripComponents/RundownGenerator.jsx:1521-1624 | the estimate is at least 170 000, with the high end at least 45 000 above the low end |
| Budget.EstimateBudget | src/Components/YourTripComponents/RundownGenerator.jsx:1521-1631 | the two loops and the cost tables produce the text of the reference estimate |
| Generator.ErrorRundown | src/Components/YourTripComponents/RundownGenerator.jsx:1657-1665 | the rundown of the `catch` block has the error title, the answers, no items, `N/A` as budget, no trip details and the exception caught |
| Generator.StartingArea | src/Components/YourTripComponents/RundownGenerator.jsx:783-790 | the route always starts in a known area: that of the first trip entry's `location`, or else of its catalog record's location, when that area is known, else Jakarta Pusat |
| Generator.Finish | src/Components/YourTripComponents/RundownGenerator.jsx:1407-1516 | after the final passes a day has at least two items |
| Generator.KnownAreas | src/Components/YourTripComponents/RundownGenerator.jsx:1639 | an area is listed exactly when it is known and some item lies in it |
| Generator.CategoriesOf | src/Components/YourTripComponents/RundownGenerator.jsx:1643 | the categories of the places, one per place, in order |
| Generator.SelectTrip | src/Components/YourTripComponents/RundownGenerator.jsx:521-741 | the selection run with the padding loop gives the selection of the reference definition |
| Generator.PlanDay | src/Components/YourTripComponents/RundownGenerator.jsx:774-1403 | the culinary/regular split, the route and the scheduler run give the day of the reference definition |
| Generator.Summarise | src/Components/YourTripComponents/RundownGenerator.jsx:1407-1655 | the final passes, the budget loops and the trip details give the summary of the reference definition |
| Generator.Generate | src/Components/YourTripComponents/RundownGenerator.jsx:514-1666 | `generateRundown` run step by step gives the rundown of the reference definition |
| Generator.GenerateError | src/Components/YourTripComponents/RundownGenerator.jsx:514-1666 | the error rundown is returned exactly when selection throws or the scheduled day threw; it has no items and `N/A` as budget and carries selection's fault, which the answers must allow, or the category fault, which needs a non-culinary trip place with a truthy non-string category |
| Generator.GenerateClean | src/Components/YourTripComponents/RundownGenerator.jsx:514-1666 | when no trip-list entry or catalog record holds a truthy non-string category and no catalog record a truthy non-string setting or description, the rundown has no error |
| Generator.SummaryShape | src/Components/YourTripComponents/RundownGenerator.jsx:1407-1655 | a summary has no error, at least two items in time order holding exactly the items of the finished day, at least one destination, at most one area change per leg, and a budget text whose first figure is at least 170 000 |
| Generator.GenerateShape | src/Components/YourTripComponents/RundownGenerator.jsx:514-1656 | any generated rundown without error has at least two items in time order, a destination count of at least one and a budget starting at no less than 170 000 |
| Generator.GenerateUsesTripOnce | src/Components/YourTripComponents/RundownGenerator.jsx:826-1403 | the generated day never schedules a destination twice, schedules only places of the trip, and is never empty, so the fallback day is not used |
| Generator.RouteKeepsIds | src/Components/YourTripComponents/RundownGenerator.jsx:83-159 | every place of the route has the id and the category of an input place |
| Prices.ParsePrice | src/Components/SaveRundownModel.jsx:27-36 | nothing reads as 0, a number as itself, and a string as the value of its digits, which is never negative and 0 exactly when every digit is a zero |
| Prices.ZeroValue | src/Components/RundownDetailPage.jsx:22-24 | a digit string has value 0 exactly when all its digits are zeros |
| Prices.ParsePriceIgnoresNonDigit | src/Components/RundownDetailPage.jsx:17-27 | a character that is not a digit does not change the parsed price |
| Prices.ParsePriceRupiah | src/Components/RundownDetailPage.jsx:21-24 | a price written `Rp <n>` parses back to `n` |
| Prices.ParsePriceFormatted | src/Components/RundownDetailPage.jsx:21-24 | a dot-grouped amount parses back to the amount |
| Prices.FromFirstDigit | src/Components/YourTripComponents/RundownGenerator.jsx:615 | the match starts at the first digit: everything before it is a non-digit |
| Prices.RunLength | src/Components/YourTripComponents/RundownGenerator.jsx:615 | the run is the longest prefix made of digits, dots and commas |
| Prices.DropSeparators | src/Components/YourTripComponents/RundownGenerator.jsx:617 | the cleaned run holds no dot and no comma |
| Prices.EnginePrice | src/Components/YourTripComponents/RundownGenerator.jsx:611-624 | a number price is taken as it is; any other reading is not negative |
| Prices.DropSeparatorsOfRun | src/Components/YourTripComponents/RundownGenerator.jsx:617 | removing the separators from a run leaves exactly its digits |
| Prices.PriceRunNoDigit | src/Components/YourTripComponents/RundownGenerator.jsx:615-618 | a price string without a digit is priced 0 |
| Prices.PriceRunIsFirstRun | src/Components/YourTripComponents/RundownGenerator.jsx:615-617 | the price is the value of the digits of the first run, which starts at the first digit and stops before the first character that is not a digit, a dot or a comma |
| Prices.PriceRunOfBudget | src/Components/YourTripComponents/RundownGenerator.jsx:1627-1631 | reading back `Rp <low> ...` with the engine's own price extraction gives the low estimate |
| Prices.BudgetTextLow | src/Components/YourTripComponents/RundownGenerator.jsx:1631 | the first price of the budget text reads back as the low end |
| Prices.AddUp | src/Components/SaveRundownModel.jsx:62-79 | the loop adds up the prices for the low end and 1.1 times them plus 10 000 for the high end |
| Prices.RangeHigh | src/Components/SaveRundownModel.jsx:74-88 | the rounded high end is `Math.round(1.1 * low + 10000)`, at least 10 000 above a non-negative low end |
| Prices.SumNonNegative | src/Components/SaveRundownModel.jsx:62-75 | prices none of which is negative add up to a sum that is not negative |
| Prices.RangeTextLow | src/Components/SaveRundownModel.jsx:82-88 | the range text's first amount reads back as the sum of the prices |
| Prices.RangeTextHigh | src/Components/SaveRundownModel.jsx:82-88 | the range text's second amount is 10 000 plus 1.1 times the sum, rounded |
| RundownUtils.ValidationErrors | src/Components/utils/rundownUtils.jsx:82-111 | missing data gives exactly the data-required error, and no error at all needs a non-empty itinerary array |
| RundownUtils.Validate | src/Components/utils/rundownUtils.jsx:82-111 | the errors are pushed in the order of the checks, and the rundown is valid exactly when none was pushed |
| RundownUtils.ValidateNull | src/Components/utils/rundownUtils.jsx:85-88 | missing rundown data is reported by exactly one error |
| RundownUtils.ItemErrorsCite | src/Components/utils/rundownUtils.jsx:99-105 | every per-item error names an item without `activity` by its 1-based position, and every such item is named |
| RundownUtils.ItemErrorsEmpty | src/Components/utils/rundownUtils.jsx:99-105 | there is no per-item error exactly when every item has an `activity` |
| RundownUtils.ValidIff | src/Components/utils/rundownUtils.jsx:82-111 | a rundown is valid exactly when it has a non-empty itinerary array whose every item has an `activity` |
| RundownUtils.StoreItem | src/Components/utils/rundownUtils.jsx:123-131 | a stored item is numbered by its position from 1, and its name is the item's `activity`, `name` or `destinationName`, whichever is set first, or `Unknown Destination` |
| RundownUtils.FormatForStorage | src/Components/utils/rundownUtils.jsx:119-141 | formatting throws exactly when the itinerary is truthy but not an array; otherwise every item is stored in order, the destination count is the number of items, and the title, duration and trip type are never empty |
| RundownUtils.StoredItemsNamed | src/Components/utils/rundownUtils.jsx:123-131 | stored items are numbered 1, 2, ... in order and always have a name |
| RundownUtils.ValidatedIsStored | src/Components/utils/rundownUtils.jsx:82-141 | a rundown that passes validation is stored with at least one item, each named by the original item's `activity` |
| RundownUtils.StoredDuration | src/Components/utils/rundownUtils.jsx:137-139 | the stored duration is the rundown's own, else the preferred duration, else `1 day` |
| RundownUtils.TotalCost | src/Components/utils/rundownUtils.jsx:167-168 | the total cost of anything that is not an array is 0 |
| RundownUtils.SumCostsAppend | src/Components/utils/rundownUtils.jsx:170-173 | the total of two runs of items is the sum of their totals |
| RundownUtils.SumCostsNumbersOnly | src/Components/utils/rundownUtils.jsx:170-173 | items whose cost is not a number add nothing |
| RundownUtils.SumCostsNonNegative | src/Components/utils/rundownUtils.jsx:170-173 | with no negative cost the total is never negative |
| SaveRundown.StringDigits | src/Components/SaveRundownModel.jsx:65-67 | a string price holding a digit gives its digits; anything else gives 0 |
| SaveRundown.ParseDigits | src/Components/SaveRundownModel.jsx:27-36 | reducing a price text to its digits does not change the price it parses to |
| SaveRundown.BudgetPrice | src/Components/SaveRundownModel.jsx:63-69 | the budget prices a destination by its original's price when that is truthy, else the digits of its own string price, else its estimated cost, else 0 |
| SaveRundown.DestinationPrice | src/Components/SaveRundownModel.jsx:178-194 | no item costs 0; an item whose original has a price costs what the budget charges for it |
| SaveRundown.BudgetPrices | src/Components/SaveRundownModel.jsx:62-75 | the prices the budget adds up are the destinations' budget prices, one per destination, in order |
| SaveRundown.EstimateBudget | src/Components/SaveRundownModel.jsx:54-89 | the `forEach` total yields the estimate text, which starts with `Rp ` whenever an array was given |
| SaveRundown.BudgetEstimationRange | src/Components/SaveRundownModel.jsx:78-88 | the estimate is the range from the sum of the prices to 10 000 plus 1.1 times that sum |
| SaveRundown.BudgetEstimationLow | src/Components/SaveRundownModel.jsx:62-88 | with no negative price, the first amount of the estimate text reads back as the sum of the prices |
| SaveRundown.SeparatorFrom | src/Components/SaveRundownModel.jsx:132 | finds the first occurrence of `" - "` at or after the start offset, and there is none before it |
| SaveRundown.Separator | src/Components/SaveRundownModel.jsx:132-135 | the label splits into more than one part exactly when it holds `" - "`; the offset is its first occurrence |
| SaveRundown.LabelName | src/Components/SaveRundownModel.jsx:130-145 | a label holding `" - "` shows what comes after its first occurrence |
| SaveRundown.NameFrom | src/Components/SaveRundownModel.jsx:151-162 | a name found among the name-like fields is always a string that is not blank after trimming |
| SaveRundown.NameFromFirst | src/Components/SaveRundownModel.jsx:151-162 | the name is the first of name, destinationName, title, placeName and location that holds a non-blank string, when only falsy or blank values come before it |
| SaveRundown.NameFromThrows | src/Components/SaveRundownModel.jsx:159-162 | a truthy number reached before any non-blank string makes `trim` throw |
| SaveRundown.NameFromDefault | src/Components/SaveRundownModel.jsx:159-162 | when every name-like field is falsy or blank the item is named `Destinasi n` by its position |
| SaveRundown.DisplayName | src/Components/SaveRundownModel.jsx:127-163 | the fallback order: a missing item is `Destinasi n`; a non-empty string label gives the name taken from the label; else a truthy activity is the name; else the name-like fields decide |
| SaveRundown.TripLabelName | src/Components/SaveRundownModel.jsx:130-135 | a trip-list label `emoji category - name` whose emoji and category hold no dash shows exactly the name |
| SaveRundown.DestinationLocation | src/Components/SaveRundownModel.jsx:166-169 | the location is the first truthy of location, address, place and area, else the empty string |
| SaveRundown.DestinationCategory | src/Components/SaveRundownModel.jsx:172-175 | the category is always truthy: the first truthy of category, type and categoryType, else `General` |
| SaveRundown.ManualFields | src/Components/SaveRundownModel.jsx:102-112 | the computed item carries the display name as its activity, its position plus one as its order, and a time two hours after the previous one from 09:00 |
| SaveRundown.ManualItem | src/Components/SaveRundownModel.jsx:102-114 | building the item fails exactly when naming the destination throws, and keeps the destination's original |
| SaveRundown.ManualItemSpread | src/Components/SaveRundownModel.jsx:113 | the destination's own fields win over the computed ones, which fill in only what it lacks |
| SaveRundown.ManualRundown | src/Components/SaveRundownModel.jsx:95-118 | the manual rundown fails exactly when naming some destination throws, and otherwise has one item per destination |
| SaveRundown.NoInvalid | src/Components/SaveRundownModel.jsx:220-234 | the list has no invalid item exactly when every item passes the item check |
| SaveRundown.FormErrors | src/Components/SaveRundownModel.jsx:197-242 | a blank title gives the title error first; a title over 100 or a description over 500 characters gives its length error |
| SaveRundown.FormValidIff | src/Components/SaveRundownModel.jsx:197-242 | the form passes exactly when the title is non-blank and at most 100 characters, the description at most 500, and the itinerary is a non-empty array of acceptable items |
| SaveRundown.ManualRundownItemsOk | src/Components/SaveRundownModel.jsx:95-118 | a manual rundown of labelled destinations (or ones that leave the activity alone) passes the item check |
| SaveRundown.Tags | src/Components/SaveRundownModel.jsx:303-306 | no tag is empty and there are no more tags than comma-separated pieces |
| SaveRundown.TagsClean | src/Components/SaveRundownModel.jsx:303-306 | every tag is non-empty, trimmed and comma-free, and there are no more tags than comma-separated pieces |
| SaveRundown.TagsCover | src/Components/SaveRundownModel.jsx:303-306 | every comma-separated piece that is not blank appears, trimmed, among the tags |
| SaveRundown.TrimInside | src/Components/SaveRundownModel.jsx:301-302 | trimming never introduces a character |
| SaveRundown.NamedFields | src/Components/SaveRundownModel.jsx:259-273 | the item keeps its own order and time when truthy, else gets its position and default time; it is named in activity, name and destinationName; price and duration are always truthy |
| SaveRundown.FallbackFields | src/Components/SaveRundownModel.jsx:275-289 | the fallback item is numbered by its position, timed by default, named `Destinasi n` and has a truthy price and duration |
| SaveRundown.NormalItem | src/Components/SaveRundownModel.jsx:251-291 | an item is normalised with the named fields when naming it succeeds and with the fallback fields when it throws, keeping its original |
| SaveRundown.NormalItemFields | src/Components/SaveRundownModel.jsx:259-289 | every normalised item has a truthy price and duration and is numbered and timed by its own fields or its position |
| SaveRundown.Present | src/Components/SaveRundownModel.jsx:292 | dropping the nulls never lengthens the list and keeps a list with no null as it is |
| SaveRundown.Normalize | src/Components/SaveRundownModel.jsx:251-292 | with no null item, the normalised itinerary has one normalised item per input item, in order |
| SaveRundown.HandleSave | src/Components/SaveRundownModel.jsx:245-315 | a record is saved exactly when the form passes |
| SaveRundown.SavedFields | src/Components/SaveRundownModel.jsx:294-313 | the record carries the title, description and item count, and the rundown's budget when it has one, else the estimate of the normalised items |
| SaveRundown.SavedShape | src/Components/SaveRundownModel.jsx:245-315 | a saved rundown keeps every item of the form, normalised and in order; its count is its length and its title the trimmed non-blank title |
| RundownDetail.SinglePrice | src/Components/RundownDetailPage.jsx:29-39 | a single price is shown as `-` exactly when it is 0 |
| RundownDetail.PriceRangeCases | src/Components/RundownDetailPage.jsx:42-50 | the range is `-` exactly when both ends parse to 0; equal ends are shown once per person, different ends as `min - max` per person |
| RundownDetail.SinglePriceParses | src/Components/RundownDetailPage.jsx:17-39 | a positive price formatted as rupiah parses back to the same price |
| RundownDetail.FormatTime | src/Components/RundownDetailPage.jsx:103-107 | a missing or empty time is shown as the empty string; a number, which has no `split`, throws |
| RundownDetail.FormatTimeKeeps | src/Components/RundownDetailPage.jsx:103-107 | `HH:MM` is shown as it is and `HH:MM:SS` loses its seconds |
| RundownDetail.DayDestName | src/Components/RundownDetailPage.jsx:152 | a day's destination always gets a truthy name |
| RundownDetail.DayDestPrice | src/Components/RundownDetailPage.jsx:155 | a day's destination always gets a truthy price text |
| RundownDetail.DayDest | src/Components/RundownDetailPage.jsx:149-160 | a day's destination gets its derived name, price, bounds, time and description and keeps every other field as it was |
| RundownDetail.FlatDest | src/Components/RundownDetailPage.jsx:168-180 | a flat activity becomes a destination named by its first truthy name field, priced `-` when it has no price, numbered 0 when it has no order, with its rating and category copied |
| RundownDetail.NormalizeDays | src/Components/RundownDetailPage.jsx:144-163 | a day-shaped itinerary keeps its days, each day's own fields and its number of destinations, each destination normalised in place |
| RundownDetail.NormalizeFlat | src/Components/RundownDetailPage.jsx:165-182 | a flat itinerary becomes one day numbered 1 with one destination per activity, in order |
| RundownDetail.NormalizeUnrecognised | src/Components/RundownDetailPage.jsx:183 | an itinerary of neither shape is shown as no days |
| RundownDetail.FlatCount | src/Components/RundownDetailPage.jsx:236 | the destination count shown for a flat itinerary is its number of activities |
| RundownDetail.EstimateBudget | src/Components/RundownDetailPage.jsx:110-141 | the nested `forEach` totals yield the budget text of the days' prices |
| RundownDetail.BudgetEstimationRange | src/Components/RundownDetailPage.jsx:110-141 | with no negative price the budget is `low - high/pax`, low the sum of the prices and high 10 000 plus 1.1 times it, rounded |
| RundownDetail.BudgetEstimationFree | src/Components/RundownDetailPage.jsx:110-141 | an itinerary whose prices are all 0 shows `-` as the low end and `Rp 10.000` as the high end |
| YourTrip.WithoutRemoves | src/Components/YourTrip.jsx:325-335 | removing an id drops every destination with that id and keeps every other destination, as often as it occurs |
| YourTrip.WithoutAbsent | src/Components/YourTrip.jsx:325-335 | removing an id no destination has leaves the list as it is |
| YourTrip.LentPrice | src/Components/YourTrip.jsx:232-234 | the price lent to an activity is always truthy |
| YourTrip.LentPriceParses | src/Components/YourTrip.jsx:232-234 | a catalog price lent as `Rp <localised number>` parses back to that price |
| YourTrip.MatchedPrice | src/Components/YourTrip.jsx:222-274 | the price is that of the first destination matching the activity, and `-` when none matches |
| YourTrip.FindPrice | src/Components/YourTrip.jsx:224-270 | the loop that stops at the first matching destination computes the matched price |
| YourTrip.Enhance | src/Components/YourTrip.jsx:210-281 | an already priced item is kept as it is; another is given the matched price, or throws when its activity is not a string |
| YourTrip.EnhanceAll | src/Components/YourTrip.jsx:210-281 | the map succeeds exactly when every item does, and then enhances each item in place |
| YourTrip.EnhanceKeeps | src/Components/YourTrip.jsx:210-281 | the enhanced itinerary has the same length, leaves priced items alone, prices unmatched items `-` and changes no field but `price` |
| YourTrip.ParseIntDigits | src/Components/YourTrip.jsx:391 | a string of digits reads as its value |
| YourTrip.ParseIntRupiah | src/Components/YourTrip.jsx:391 | a price written `Rp ...` reads as 0 |
| YourTrip.TripPrice | src/Components/YourTrip.jsx:388-391 | a destination with a catalog price adds that price read by `parseInt` |
| YourTrip.TripPriceDigits | src/Components/YourTrip.jsx:388-391 | a destination without a catalog price adds the value of its price text's digits |
| YourTrip.TripPrices | src/Components/YourTrip.jsx:387-395 | the prices added up are the destinations' prices, one per destination, in order |
| YourTrip.AddPrices | src/Components/YourTrip.jsx:386-396 | the `forEach` stops exactly when some price throws; otherwise the low total is the sum of the prices and the high total 1.1 times it |
| YourTrip.EstimateBudget | src/Components/YourTrip.jsx:385-410 | the totals, with 10 000 added at the high end, yield the popup's budget text, or nothing when a price throws |
| YourTrip.TripBudgetRange | src/Components/YourTrip.jsx:385-410 | with no negative price the budget opens with the sum of the prices and closes with 10 000 plus 1.1 times it, rounded |
| YourTrip.Toggled | src/Components/YourTrip.jsx:413-417 | toggling always changes the size |
| YourTrip.ToggledTwice | src/Components/YourTrip.jsx:413-417 | toggling twice gives the size back |
| YourTrip.Stored | src/Components/YourTrip.jsx:297 | the stored rundown parses back with the same title and budget and its itinerary as an array |
| YourTrip.Restored | src/Components/YourTrip.jsx:176-187 | a restored rundown always has a truthy title (the stored one, else `Your Trip Rundown`), the stored itinerary or `[]` when it is not an array, and the stored budget when truthy, else the estimate of the list, failing exactly when that estimate throws |
| YourTrip.RestoreStored | src/Components/YourTrip.jsx:176-187 | a rundown the popup stored, with a title and a budget, is restored unchanged |
| YourTrip.EmptyTripBudget | src/Components/YourTrip.jsx:385-410 | the estimate over an empty list, which the mount effect's closure sees, is `Rp 0 - 10.000/pax` |
| YourTrip.Popup.constructor | src/Components/YourTrip.jsx:10-26 | a fresh popup is closed and has no destinations, no rundown, no flag set and the normal size |
| YourTrip.Popup.LoadSavedTrip | src/Components/YourTrip.jsx:104-113 | a stored list whose destinations all have a label and a price becomes the list; a stored list that does not needs the catalog read again |
| YourTrip.Popup.RemoveDestination | src/Components/YourTrip.jsx:325-335 | the list loses every destination with the id and is stored; a list of at most one destination also loses its rundown and badge |
| YourTrip.Popup.ClearTrip | src/Components/YourTrip.jsx:345-351 | no destinations, no rundown, no flags and nothing stored |
| YourTrip.Popup.GenerateRundown | src/Components/YourTrip.jsx:210-297 | the enhanced rundown, titled and budgeted by default, becomes the popup's and is stored, new and unsaved; a throw changes nothing |
| YourTrip.Popup.SaveSuccess | src/Components/YourTrip.jsx:300-306 | saved, no error, the dialog closed, no badge and no stored rundown |
| YourTrip.Popup.TogglePopupSize | src/Components/YourTrip.jsx:413-417 | the size toggles and nothing else changes |
| YourTrip.Popup.RestoreRundown | src/Components/YourTrip.jsx:170-192 | on mount a stored rundown becomes the popup's with the restored defaults; nothing else changes, and nothing at all when nothing is stored or the estimate throws |
| YourTrip.Popup.TogglePopup | src/Components/YourTrip.jsx:481-485 | the floating button opens or closes the popup and clears the badge, and nothing else changes |
| YourTrip.Popup.ResetRundown | src/Components/YourTrip.jsx:680-685 | the reset button drops the rundown and its stored copy and clears the saved mark and the badge, and nothing else changes |
| YourTrip.Popup.SavedTimeout | src/Components/YourTrip.jsx:314-316 | the timer after a save clears the saved mark only |
| YourTrip.Popup.SaveError | src/Components/YourTrip.jsx:320-323 | a failed save keeps its error and changes nothing else |
| YourTrip.Popup.SetGeneratorOpen | src/Components/YourTrip.jsx:194-201 | opening or closing the rundown generator changes only its visibility |
| YourTrip.Popup.RundownGenerated | src/Components/YourTrip.jsx:57-70 | a rundown announced by the generator becomes the popup's as it is, new and unsaved, and is not stored |
| YourTrip.Popup.RundownSaved | src/Components/YourTrip.jsx:73-90 | a save announced elsewhere marks the rundown saved, clears the error and the badge, and leaves the dialog and the stored rundown alone |
| AddToTrip.Emoji | src/Components/YourTripComponents/AddToTripButton.jsx:41-53 | a category that is not a string always gets the pin |
| AddToTrip.PriceLabel | src/Components/YourTripComponents/AddToTripButton.jsx:79 | the price text is `Free` exactly when the destination has no truthy price |
| AddToTrip.TripItem | src/Components/YourTripComponents/AddToTripButton.jsx:76-84 | the item carries the destination's id, the `emoji category - name` label, the price text and the four copied fields, and nothing else |
| AddToTrip.TripItemBudget | src/Components/YourTripComponents/AddToTripButton.jsx:79 | the trip popup budgets the written item at the destination's positive number price, its string price read as digits, or 0 for `Free` |
| AddToTrip.Added | src/Components/YourTripComponents/AddToTripButton.jsx:86-100 | after adding, the list holds the id; a list that had it is unchanged, another gets the item appended |
| AddToTrip.Removed | src/Components/YourTripComponents/AddToTripButton.jsx:126 | after removing, no item has the id, and exactly the items of other ids remain |
| AddToTrip.AddThenRemove | src/Components/YourTripComponents/AddToTripButton.jsx:86-126 | adding a destination the list lacks and removing it again gives the list back |
| AddToTrip.RemoveKeepsOthers | src/Components/YourTripComponents/AddToTripButton.jsx:126 | removing keeps every item of another id as often as it occurred |
| AddToTrip.TripButton.constructor | src/Components/YourTripComponents/AddToTripButton.jsx:4-6 | a fresh button is not added, shows no feedback and is not loading |
| AddToTrip.TripButton.CheckIfAdded | src/Components/YourTripComponents/AddToTripButton.jsx:9-23 | the button is added exactly when the stored list has an item with the destination's id |
| AddToTrip.TripButton.AddToTrip | src/Components/YourTripComponents/AddToTripButton.jsx:65-116 | an added button only shows feedback; a list that has the id only marks the button; otherwise the item is appended, the button added and the stored rundown dropped |
| AddToTrip.TripButton.RemoveFromTrip | src/Components/YourTripComponents/AddToTripButton.jsx:119-140 | with a stored list every item with the id is dropped, the button is no longer added and the stored rundown goes; without one only the loading flag is set |
| AddToTrip.TripButton.FeedbackTimeout | src/Components/YourTripComponents/AddToTripButton.jsx:72 | the timer hides the feedback and changes nothing else |
| Rekomendasi.AggregateCounts | src/Pages/Rekomendasi.jsx:66-90 | a destination has an entry exactly when it has a review, and the entry holds the number of its reviews and the sum of their parsed ratings |
| Rekomendasi.AggregateReviews | src/Pages/Rekomendasi.jsx:66-96 | the `forEach` over the review documents builds the aggregate of the reviews |
| Rekomendasi.AverageInRange | src/Pages/Rekomendasi.jsx:93-96 | with every rating between 0 and 5, every destination's average is between 0 and 5 |
| Rekomendasi.StarsSumToFive | src/Pages/Rekomendasi.jsx:234-236 | for a rating from 0 to 5 the full, half and empty stars are never negative and come to five |
| Rekomendasi.StarRating | src/Pages/Rekomendasi.jsx:229-232 | a destination without reviews is shown with rating 0 and no reviews |
| Rekomendasi.StarsOfReviews | src/Pages/Rekomendasi.jsx:229-236 | over ratings from 0 to 5, every destination's stars come to five and its count is its number of reviews |
| Rekomendasi.FilterResults | src/Pages/Rekomendasi.jsx:162-181 | the filter throws exactly when there is a search and some name is a number |
| Rekomendasi.FilterResultsMeaning | src/Pages/Rekomendasi.jsx:162-181 | the filtered list keeps the catalog's order and holds exactly the destinations matching the search and the active category |
| Rekomendasi.TotalPages | src/Pages/Rekomendasi.jsx:287 | there are no pages exactly when nothing is listed; otherwise the last page is the one holding the last destination |
| Rekomendasi.PageSlice | src/Pages/Rekomendasi.jsx:284-286 | a page shows at most 15 destinations, the ones from its offset on, and is non-empty exactly when it is one of the pages |
| Rekomendasi.PagesCover | src/Pages/Rekomendasi.jsx:284-287 | every listed destination is shown on exactly the page and place its index says |
| Rekomendasi.WindowShape | src/Pages/Rekomendasi.jsx:312-328 | no numbers for at most one page; otherwise up to three consecutive ascending page numbers within range, including the current page |
| Rekomendasi.RenderPagination | src/Pages/Rekomendasi.jsx:312-328 | the loop pushes exactly the window's page numbers |
| Rekomendasi.Page.constructor | src/Pages/Rekomendasi.jsx:25-29 | a loaded page lists the whole catalog on page 1 with no search and no category |
| Rekomendasi.Page.ApplyFilters | src/Pages/Rekomendasi.jsx:162-181 | the filtered list is recomputed and the page goes back to 1; a throwing filter changes nothing |
| Rekomendasi.Page.CategoryClick | src/Pages/Rekomendasi.jsx:184-190 | clicking the active category switches it off, any other switches it on; the search is cleared |
| Rekomendasi.Page.SearchChange | src/Pages/Rekomendasi.jsx:198-200 | the search becomes the typed text and nothing else changes |
| Rekomendasi.Page.NextPage | src/Pages/Rekomendasi.jsx:290-294 | one page on unless this is the last |
| Rekomendasi.Page.PrevPage | src/Pages/Rekomendasi.jsx:296-300 | one page back unless this is the first |
| Rekomendasi.Page.GoToPage | src/Pages/Rekomendasi.jsx:302-304 | a numbered button moves to its page |
| DestinationDetail.NumberOf | src/Pages/DestinationDetail.jsx:176 | a whole number reads as itself and a missing rating is `NaN` |
| DestinationDetail.Counts | src/Pages/DestinationDetail.jsx:172-181 | the distribution always has exactly the five stars 1 to 5 |
| DestinationDetail.RatingStats | src/Pages/DestinationDetail.jsx:164-187 | no reviews give average 0 and an all-zero distribution |
| DestinationDetail.Ratings | src/Pages/DestinationDetail.jsx:175-176 | each review's rating is read through `Number`, in order |
| DestinationDetail.CalculateRatingStats | src/Pages/DestinationDetail.jsx:164-187 | the `forEach` yields the statistics of the ratings |
| DestinationDetail.CountsBound | src/Pages/DestinationDetail.jsx:175-181 | the stars of the distribution add up to the counted ratings, never more than there are reviews |
| DestinationDetail.CountedTotalBounds | src/Pages/DestinationDetail.jsx:175-181 | the counted total lies between one and five times the number of counted ratings |
| DestinationDetail.AverageBounds | src/Pages/DestinationDetail.jsx:184 | the average is between 0 and 5, and 0 exactly when no rating was counted |
| DestinationDetail.PriceTypeCaption | src/Pages/DestinationDetail.jsx:289-294 | no price type gives `Tiket masuk`, `all-in` gives `Harga all-inclusive`, any other `Tiket masuk saja` |
| DestinationDetail.OwnReview | src/Pages/DestinationDetail.jsx:123 | the user's own review is found exactly when one of the reviews is theirs, and it is the first such review |
| DestinationDetail.DisplayedMeaning | src/Pages/DestinationDetail.jsx:771-773 | the list shown is newest first, holds each review as often as the reviews do, and never the user's own once they have reviewed |
| DestinationDetail.Decide | src/Pages/DestinationDetail.jsx:200-237 | a signed-out user goes to log in, a blank comment is refused, a user with a review updates it with the new comment and rating, anyone else adds one |
| DestinationDetail.ApplySubmit | src/Pages/DestinationDetail.jsx:226-237 | an addition appends the review, an update rewrites one in place, anything else leaves the documents alone |
| DestinationDetail.UpdateKeepsCount | src/Pages/DestinationDetail.jsx:226-233 | updating a review never changes how many reviews a user has |
| DestinationDetail.SubmitNoDuplicate | src/Pages/DestinationDetail.jsx:200-237 | a user who has a review never gets a second one |
| DestinationDetail.SubmitFirstReview | src/Pages/DestinationDetail.jsx:200-237 | a signed-in user without a review who submits a comment adds exactly one |
| DestinationDetail.ReviewPanel.constructor | src/Pages/DestinationDetail.jsx:27-36 | the panel starts with no reviews, zero statistics, an empty form rated 5 and no error |
| DestinationDetail.ReviewPanel.FetchReviews | src/Pages/DestinationDetail.jsx:138-161 | the documents become the list and its statistics are computed |
| DestinationDetail.ReviewPanel.CheckUserReview | src/Pages/DestinationDetail.jsx:120-135 | for a signed-in user and a non-empty list the flags say whether and which review is theirs; otherwise they stay |
| DestinationDetail.ReviewPanel.EditReview | src/Pages/DestinationDetail.jsx:264-270 | the form opens on the user's own review's comment and rating |
| DestinationDetail.ReviewPanel.WriteReview | src/Pages/DestinationDetail.jsx:216-253 | the update or addition is written to the documents, the list and statistics are read again from them and the form is reset |
| DestinationDetail.ReviewPanel.SubmitReview | src/Pages/DestinationDetail.jsx:200-261 | the decision is written to the documents, which are read again, and the form is reset; a blank comment only sets the error |
| Carousel.ByFeaturedOrders | src/Components/DestinationCarousel.jsx:28 | the carousel is ordered highest rank first, is a permutation of the catalog, and keeps equal ranks in catalog order |
| Carousel.Filtered | src/Components/DestinationCarousel.jsx:72-76 | the filter throws exactly when there is a search and some name is not a string; otherwise it holds exactly the matching cards |
| Carousel.FilteredInOrder | src/Components/DestinationCarousel.jsx:72-76 | the cards shown are in the carousel's order |
| Carousel.LastSlide | src/Components/DestinationCarousel.jsx:191 | the last slide is the one holding the last card, three cards a slide; none for no cards |
| Carousel.Slides.constructor | src/Components/DestinationCarousel.jsx:12-28 | the carousel starts on slide 0 over the ranked catalog |
| Carousel.Slides.Previous | src/Components/DestinationCarousel.jsx:127 | one slide back, never below 0 |
| Carousel.Slides.Next | src/Components/DestinationCarousel.jsx:191 | one slide on, never past the last |
| Carousel.Slides.SetFilters | src/Components/DestinationCarousel.jsx:78-83 | a changed category or search goes back to slide 0; unchanged props keep the slide |

## Reference definitions

These functions define what the source computes and carry no contract of
their own; the lemmas and methods named after each state their properties,
and their rows above cite the same source lines.

- `Route.Walk` (RundownGenerator.jsx:135-156), the order in which areas are visited: `Route.WalkCovers`, `Route.FlattenAreas`, `Route.VisitAreas`.
- `Scheduler.Schedule` (RundownGenerator.jsx:896-1403), the day stage by stage: `Scheduler.RunSchedule`, `Scheduler.ScheduleGuarantees`, `Scheduler.BeforeDinnerGuarantees`.
- `Generator.GenerateRundown` (RundownGenerator.jsx:514-1666): `Generator.Generate`, `Generator.GenerateShape`, `Generator.GenerateError`, `Generator.GenerateClean`, `Generator.GenerateUsesTripOnce`.
- `Clock.StartClock` (RundownGenerator.jsx:746-749): `Clock.StartClockDefault`, `Clock.ParseFormatTime`.
- `RundownDetail.PriceRange` and `RundownDetail.FormatPriceRange` (RundownDetailPage.jsx:42-50): `RundownDetail.PriceRangeCases`.
- `RundownDetail.Normalize` (RundownDetailPage.jsx:144-183): `RundownDetail.NormalizeDays`, `RundownDetail.NormalizeFlat`, `RundownDetail.NormalizeUnrecognised`.
- `Rekomendasi.Aggregate` (Rekomendasi.jsx:66-90): `Rekomendasi.AggregateCounts`, `Rekomendasi.AggregateReviews`.
- `Rekomendasi.StarSplit` (Rekomendasi.jsx:234-236): `Rekomendasi.StarsSumToFive`, `Rekomendasi.StarRating`.
- `Rekomendasi.Window` (Rekomendasi.jsx:312-328): `Rekomendasi.WindowShape`, `Rekomendasi.RenderPagination`.
- `Carousel.ByFeatured` (DestinationCarousel.jsx:28): `Carousel.ByFeaturedOrders`.

## Left out

- Firestore reads and writes (the catalog fetch of the generator, saving, updating and deleting rundowns in `src/Components/utils/rundownUtils.jsx`, the review and destination queries of the pages): the catalog, the reviews and the review documents are inputs or class fields, and a write is a new value of those fields.
- `src/Components/hooks/useRundown.jsx` and `src/Components/UserProfilePage.jsx` are not part of this model: they subscribe to and edit stored rundowns, whose validation and formatting are modelled through `rundownUtils.jsx`.
- Authentication, routing and pure view components (login and registration, navigation bars, home, about, search bar, footer) are not part of this model; only the signed-in user's id is an input.
- `localStorage`, `CustomEvent` dispatch, `alert`, `console` and JSX rendering: the stored trip list and rundown are fields of the classes, events and logging have no counterpart.
- `setTimeout`: the three-second feedback timer of the trip button and the five-second saved-mark timer of the popup are the separate methods `AddToTrip.TripButton.FeedbackTimeout` and `YourTrip.Popup.SavedTimeout`; when they fire is not modelled.
- React state timing: `generateRundown` takes its answers as an explicit `Preferences.Prefs` value instead of the state `handleNext` is still updating.
- Random ids of padded and culinary destinations: destination ids are taken as given and distinct; the new review document's id and the server time are parameters of `DestinationDetail.ReviewPanel.SubmitReview`.
- Floating point: amounts scaled by 1.1, 1.2 or 1.5 are kept in tenths of a rupiah, rounded halves up where the source calls `Math.round` and halves away from zero where `Intl.NumberFormat` rounds; review ratings are reals; `toFixed(1)` of the detail page's average is not modelled (the average is kept unrounded).
- `Intl.NumberFormat` and `toLocaleString`: rupiah amounts are written with `.` thousands grouping and the `Rp` prefix; the exact spacing character of the browser's currency format is not modelled.
- `parseFloat` and `Number`: only strings of digits (and whole numbers) are read; decimal points, exponents and signs other than `parseInt`'s leading sign are not modelled.
- Lower-casing is ASCII only; Unicode case folding and UTF-16 string lengths are not modelled (lengths count code points).
- YourTrip.MatchedPrice: the three name-matching strategies of `handleGenerateRundown` are abstracted as the parameter `matches`; only which destination is matched first and what price it lends are modelled.
- YourTrip.Popup.LoadSavedTrip: the path that reads the catalog again for an incomplete stored list is reported by `needsFetch` and not modelled further.
- YourTrip.Popup.GenerateRundown: the rundown models `title`, `itinerary` and `budgetEstimation`; `tripDetails` and `error`, which are copied through, are left out.
- YourTrip.Popup.RestoreRundown: `tripDetails` and `error` are left out in the same way; a stored text that `JSON.parse` rejects, which the source catches and logs, is not modelled, since the popup only stores what it stringified.
- YourTrip.Popup: the authentication listener, the one-second rundown animation and the `tripUpdated` listener, which only reruns `LoadSavedTrip`, are not modelled; nor is the `yourTrip` write of a non-empty list by the effect at YourTrip.jsx:163-167, which on every path the model covers writes back what is already stored.
- SaveRundown.ManualItem, SaveRundown.NormalItem and SaveRundown.SavedFields: the copies of the source data kept for reference are not fields of the model: `originalData` of each item, the manual rundown's empty `tags` array and the saved record's `originalSelectedDestinations`; the item keeps only its `original`.
- RundownUtils.Validate: the itinerary is a sequence of item objects, so two inputs of `validateRundownData` cannot be expressed: a truthy string itinerary, on which its `forEach` throws, and a `null` item, where `item.activity` throws; `RundownUtils.ItineraryField.Other` stands for a truthy non-array without a `length`. (The save dialog's items and the detail page's day destinations do model `null`.)
- DestinationDetail.ReviewPanel.SubmitReview: writing the average rating back to the destination document is left out; it is a Firestore write of a value the model already computes.
- DestinationDetail.Counts: a rating that is not a whole number from 1 to 5 is never counted; the source would create a fractional key for `3.5`, which the form cannot produce.
- Carousel.Rank: a `featured` value that is not a number is ranked 0.
- `JSON.stringify` dropping `undefined` fields is not modelled: a missing field and an `undefined` one are both `VNone`.
- Budget.TransportCost: states only that the transport band starts at 10 000 and its high end exceeds its low end, not the exact band of every transport mode.
- The render-time sort of `RundownDetailPage.jsx` and its query parameters are display only and left out.
- Generator.ErrorRundown: `error` holds which `toLowerCase` call threw (`Places.Fault`), not the text of `error.message`, which differs between JavaScript engines.
- Generator.GenerateError and Generator.GenerateClean: a catalog or trip-list value is `undefined`, a number or a string; objects, arrays and booleans in those fields, which would raise the same exceptions or none, are not modelled.
- Generator.GenerateRundown: requires a start time of the form `HH:MM`, which the time widget always yields; a malformed start time, which makes the source compute `NaN` times, is not modelled.
