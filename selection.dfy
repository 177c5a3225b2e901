/**
 * Candidate selection of `generateRundown`: the preselected trip list is
 * normalised, padded from the catalog up to a target count that depends on
 * the travel style and the duration, filtered by category, environment and
 * budget, ordered by the priority answer, and given a culinary place.
 */
module Selection {
  import opened JsValues
  import opened Lists
  import opened Prices
  import opened Places
  import opened Preferences

  /** How many destinations the trip aims for: the travel-style × duration table. */
  function TargetCount(style: string, duration: string): (n: nat)
    ensures 2 <= n <= 10
    ensures style == "relaxed" ==> n == (if duration == "half-day" then 2 else if duration == "full-day" then 3 else 5)
    ensures style == "intensive" ==> n == (if duration == "half-day" then 4 else if duration == "full-day" then 6 else 10)
    ensures style != "relaxed" && style != "intensive" ==>
              n == (if duration == "half-day" then 3 else if duration == "full-day" then 4 else 8)
  {
    var row := if style == "relaxed" then [2, 3, 5] else if style == "intensive" then [4, 6, 10] else [3, 4, 8];
    if duration == "half-day" then row[0] else if duration == "full-day" then row[1] else row[2]
  }

  /** A longer trip never aims for fewer destinations, and a busier style never for fewer. */
  lemma TargetMonotone(style: string, duration: string)
    ensures TargetCount(style, "half-day") < TargetCount(style, "full-day") < TargetCount(style, "weekend")
    ensures TargetCount("relaxed", duration) < TargetCount(style, duration) || style == "relaxed"
    ensures TargetCount(style, duration) < TargetCount("intensive", duration) || style == "intensive"
  {
  }

  /** The catalog as normalised padding candidates, in catalog order. */
  function Candidates(all: seq<Catalog>): (ps: seq<Place>)
    ensures |ps| == |all|
    ensures forall i :: 0 <= i < |all| ==> ps[i] == FromCatalog(all[i])
  {
    if all == [] then [] else [FromCatalog(all[0])] + Candidates(all[1..])
  }

  /** `dest => !existingIds.has(dest.id)`. */
  function Fresh(ids: set<string>): Place -> bool
  {
    (p: Place) => p.id !in ids
  }

  /** `dest => dest.category && categoryFilter.includes(dest.category)`. */
  function InCategories(cats: seq<string>): Place -> bool
  {
    (p: Place) => Truthy(p.category) && p.category.VStr? && p.category.s in cats
  }

  /**
   * The category filter: applied only when some but not all of the
   * available categories are ticked.
   */
  function CategoryFilter(ps: seq<Place>, cats: seq<string>, available: nat): (r: seq<Place>)
    ensures 0 < |cats| < available ==> r == Filter(ps, InCategories(cats))
    ensures !(0 < |cats| < available) ==> r == ps
  {
    if 0 < |cats| < available then Filter(ps, InCategories(cats)) else ps
  }

  /** The environment filter keeps a place whose setting is unknown, mixed or the chosen one. */
  function EnvFits(env: string): Place -> bool
  {
    (p: Place) => !Truthy(p.indoorOutdoor) || p.indoorOutdoor == VStr("both")
         || (p.indoorOutdoor.VStr? && ToLower(p.indoorOutdoor.s) == env)
  }

  /** A setting on which `dest.indoorOutdoor.toLowerCase()` would be called on a non-string. */
  predicate EnvThrows(p: Place)
  {
    Truthy(p.indoorOutdoor) && !p.indoorOutdoor.VStr?
  }

  /**
   * The environment filter, applied unless the answer is empty or `'both'`.
   * It throws when a candidate's setting is a truthy non-string value.
   */
  function EnvFilter(ps: seq<Place>, env: string): (r: Result<seq<Place>>)
    ensures (env == "" || env == "both") ==> r == Ok(ps)
    ensures env != "" && env != "both" ==>
              (r.Throws? <==> exists i :: 0 <= i < |ps| && EnvThrows(ps[i]))
    ensures r.Throws? ==> r.fault == EnvironmentFault
    ensures env != "" && env != "both" && r.Ok? ==> r.value == Filter(ps, EnvFits(env))
  {
    if env == "" || env == "both" then Ok(ps)
    else if exists i :: 0 <= i < |ps| && EnvThrows(ps[i]) then Throws(EnvironmentFault)
    else Ok(Filter(ps, EnvFits(env)))
  }

  /** The engine's price of a candidate: its own price field, else the catalog record's string price. */
  function PlacePrice(p: Place): int
  {
    EnginePrice(p.price, if p.original.Some? then Some(p.original.value.price) else None)
  }

  /** The budget band a price falls in: under 100 000, 100 000 to 300 000, over 300 000. */
  predicate BudgetFits(budget: string, price: int)
  {
    if budget == "low" then price < 100000
    else if budget == "medium" then 100000 <= price <= 300000
    else price > 300000
  }

  function Affordable(budget: string): Place -> bool
  {
    (p: Place) => BudgetFits(budget, PlacePrice(p))
  }

  /** `Math.ceil(n / 2)` for a natural number. */
  function HalfUp(n: nat): nat
  {
    (n + 1) / 2
  }

  /**
   * The budget filter: tried only when there are more candidates than the
   * target, and kept only when at least half the target survives.
   */
  function BudgetFilter(ps: seq<Place>, budget: string, target: nat): (r: seq<Place>)
  {
    if budget != "" && |ps| > target then
      var f := Filter(ps, Affordable(budget));
      if |f| >= HalfUp(target) then f else ps
    else ps
  }

  /** The budget filter either keeps the list or narrows it to affordable places, and it narrows exactly when allowed. */
  lemma BudgetFilterApplied(ps: seq<Place>, budget: string, target: nat)
    ensures var r := BudgetFilter(ps, budget, target);
            r == ps || r == Filter(ps, Affordable(budget))
    ensures var r := BudgetFilter(ps, budget, target);
            r != ps ==> budget != "" && |ps| > target && |r| >= HalfUp(target)
                        && forall i :: 0 <= i < |r| ==> BudgetFits(budget, PlacePrice(r[i]))
    ensures var f := Filter(ps, Affordable(budget));
            budget != "" && |ps| > target && |f| >= HalfUp(target) ==> BudgetFilter(ps, budget, target) == f
    ensures budget == "" || |ps| <= target ==> BudgetFilter(ps, budget, target) == ps
  {
    var r := BudgetFilter(ps, budget, target);
    if r != ps {
      assert r == Filter(ps, Affordable(budget));
      forall i | 0 <= i < |r|
        ensures BudgetFits(budget, PlacePrice(r[i]))
      {
        assert Affordable(budget)(r[i]);
      }
    }
  }

  // ---------------------------------------------------------------------------
  // Priority ordering

  predicate PhotoSpot(p: Place)
  {
    var d := LowerDescription(p);
    Contains(d, "instagrammable") || Contains(d, "foto") || Contains(d, "photo")
  }

  predicate Relaxing(p: Place)
  {
    var d := LowerDescription(p);
    p.category == VStr("Alam") || Contains(d, "relax") || Contains(d, "spa")
  }

  predicate Active(p: Place)
  {
    var d := LowerDescription(p);
    p.category == VStr("Rekreasi") || Contains(d, "aktivitas") || Contains(d, "activity")
  }

  /** The key the priority answer sorts by; `None` for `'experience'` and unknown answers, which keep the order. */
  function PriorityKey(priority: string): Option<Place -> bool>
  {
    if priority == "photo" then Some(PhotoSpot)
    else if priority == "culinary" then Some((p: Place) => p.category == VStr("Kuliner"))
    else if priority == "relax" then Some(Relaxing)
    else if priority == "activities" then Some(Active)
    else None
  }

  function Not(f: Place -> bool): Place -> bool
  {
    (p: Place) => !f(p)
  }

  /** A stable sort on a boolean key, keyed places first: the matching places, then the others, each in order. */
  function Partition(ps: seq<Place>, f: Place -> bool): (r: seq<Place>)
  {
    Filter(ps, f) + Filter(ps, Not(f))
  }

  /** The answers whose comparator lower-cases both candidates' descriptions. */
  predicate ReadsDescription(priority: string)
  {
    priority == "photo" || priority == "relax" || priority == "activities"
  }

  /**
   * The priority sort. `Array.prototype.sort` hands every element of a list
   * of two or more to the comparator, so a comparator that lower-cases
   * descriptions throws once any candidate's description is a truthy
   * non-string; a shorter list is never compared.
   */
  function PrioritySort(ps: seq<Place>, priority: string): (r: Result<seq<Place>>)
  {
    if ReadsDescription(priority) && |ps| >= 2 && exists i :: 0 <= i < |ps| && DescriptionThrows(ps[i]) then
      Throws(DescriptionFault)
    else
      var key := PriorityKey(priority);
      Ok(if key.Some? then Partition(ps, key.value) else ps)
  }

  /** Filtering by a condition no element meets leaves nothing. */
  lemma {:induction false} FilterNone(s: seq<Place>, f: Place -> bool)
    requires forall i :: 0 <= i < |s| ==> !f(s[i])
    ensures Filter(s, f) == []
    decreases |s|
  {
    if s != [] {
      FilterNone(s[1..], f);
    }
  }

  /**
   * The stable partition is a permutation of its input, puts every keyed
   * place before every other, and keeps the relative order within each class.
   */
  lemma PartitionSorts(ps: seq<Place>, f: Place -> bool)
    ensures multiset(Partition(ps, f)) == multiset(ps)
    ensures forall i, j :: 0 <= i < j < |Partition(ps, f)| && f(Partition(ps, f)[j]) ==> f(Partition(ps, f)[i])
    ensures Filter(Partition(ps, f), f) == Filter(ps, f)
    ensures Filter(Partition(ps, f), Not(f)) == Filter(ps, Not(f))
  {
    var a, b := Filter(ps, f), Filter(ps, Not(f));
    var r := Partition(ps, f);
    forall x
      ensures multiset(r)[x] == multiset(ps)[x]
    {
      FilterCount(ps, f, x);
      FilterCount(ps, Not(f), x);
    }
    assert multiset(r) == multiset(ps);
    forall i, j | 0 <= i < j < |r| && f(r[j])
      ensures f(r[i])
    {
      assert r[i] == a[i];
    }
    FilterAppend(a, b, f);
    FilterAll(a, f);
    FilterNone(b, f);
    FilterAppend(a, b, Not(f));
    FilterNone(a, Not(f));
    FilterAll(b, Not(f));
  }

  /**
   * The priority sort throws exactly when its comparator reads descriptions,
   * there are two candidates or more and one has a description that is a
   * truthy non-string; otherwise it only reorders its candidates, putting
   * every keyed place first, and leaves them alone for an answer with no key.
   */
  lemma PrioritySortPermutes(ps: seq<Place>, priority: string)
    ensures var r := PrioritySort(ps, priority);
            r.Throws? <==> ReadsDescription(priority) && |ps| >= 2 && exists i :: 0 <= i < |ps| && DescriptionThrows(ps[i])
    ensures var r := PrioritySort(ps, priority);
            r.Throws? ==> r.fault == DescriptionFault
    ensures var r := PrioritySort(ps, priority);
            r.Ok? ==> multiset(r.value) == multiset(ps)
    ensures var r := PrioritySort(ps, priority);
            r.Ok? && PriorityKey(priority).Some? ==>
              forall i, j :: 0 <= i < j < |r.value| && PriorityKey(priority).value(r.value[j]) ==> PriorityKey(priority).value(r.value[i])
    ensures PriorityKey(priority).None? ==> PrioritySort(ps, priority) == Ok(ps)
  {
    if PriorityKey(priority).Some? {
      PartitionSorts(ps, PriorityKey(priority).value);
    }
  }

  // ---------------------------------------------------------------------------
  // Padding

  /**
   * The padding loop as a function: `ids` is the set of ids already in the
   * trip; a candidate is appended when its id is new and the trip is below
   * target, and the loop stops as soon as the trip reaches the target.
   */
  function Fill(trip: seq<Place>, ids: set<string>, cands: seq<Place>, target: nat): (r: seq<Place>)
    ensures |trip| <= |r|
    ensures |trip| >= target ==> r == trip
    ensures |trip| < target ==> |r| <= target
    decreases |cands|
  {
    if cands == [] then trip
    else
      var c := cands[0];
      var take := c.id !in ids && |trip| < target;
      var trip' := if take then trip + [c] else trip;
      var ids' := if take then ids + {c.id} else ids;
      if |trip'| >= target then trip' else Fill(trip', ids', cands[1..], target)
  }

  /** Padding keeps the trip as a prefix, leaves a trip at or over target alone, and never passes the target. */
  lemma {:induction false} FillPrefix(trip: seq<Place>, ids: set<string>, cands: seq<Place>, target: nat)
    ensures var r := Fill(trip, ids, cands, target);
            |r| >= |trip| && r[..|trip|] == trip
    ensures |trip| >= target ==> Fill(trip, ids, cands, target) == trip
    ensures |trip| < target ==> |Fill(trip, ids, cands, target)| <= target
    decreases |cands|
  {
    if cands != [] {
      var c := cands[0];
      var take := c.id !in ids && |trip| < target;
      var trip' := if take then trip + [c] else trip;
      var ids' := if take then ids + {c.id} else ids;
      if |trip'| < target {
        FillPrefix(trip', ids', cands[1..], target);
        var r := Fill(trip', ids', cands[1..], target);
        assert r[..|trip|] == r[..|trip'|][..|trip|];
      }
    }
  }

  /** Padding appends only candidates whose ids are new and pairwise different. */
  lemma {:induction false} FillFresh(trip: seq<Place>, ids: set<string>, cands: seq<Place>, target: nat)
    ensures var r := Fill(trip, ids, cands, target);
            forall k :: |trip| <= k < |r| ==> r[k] in cands && r[k].id !in ids
    ensures var r := Fill(trip, ids, cands, target);
            forall k, l :: |trip| <= k < l < |r| ==> r[k].id != r[l].id
    decreases |cands|
  {
    if cands != [] {
      var c := cands[0];
      var take := c.id !in ids && |trip| < target;
      var trip' := if take then trip + [c] else trip;
      var ids' := if take then ids + {c.id} else ids;
      var r := Fill(trip, ids, cands, target);
      if |trip'| < target {
        assert r == Fill(trip', ids', cands[1..], target);
        FillFresh(trip', ids', cands[1..], target);
        FillPrefix(trip', ids', cands[1..], target);
        if take {
          assert r[|trip|] == r[..|trip'|][|trip|] == c;
        }
        forall k | |trip| <= k < |r|
          ensures r[k] in cands && r[k].id !in ids
        {
          if k >= |trip'| {
            assert r[k] in cands[1..];
          }
        }
      }
    }
  }

  /** Padding that ends below target has taken every candidate whose id was new. */
  lemma {:induction false} FillExhausts(trip: seq<Place>, ids: set<string>, cands: seq<Place>, target: nat)
    ensures var r := Fill(trip, ids, cands, target);
            |r| < target ==>
              forall i :: 0 <= i < |cands| ==>
                cands[i].id in ids || exists k :: |trip| <= k < |r| && r[k].id == cands[i].id
    decreases |cands|
  {
    if cands != [] {
      var c := cands[0];
      var take := c.id !in ids && |trip| < target;
      var trip' := if take then trip + [c] else trip;
      var ids' := if take then ids + {c.id} else ids;
      var r := Fill(trip, ids, cands, target);
      if |trip'| < target && |r| < target {
        assert r == Fill(trip', ids', cands[1..], target);
        FillExhausts(trip', ids', cands[1..], target);
        FillPrefix(trip', ids', cands[1..], target);
        if take {
          assert r[|trip|] == r[..|trip'|][|trip|] == c;
        }
        forall i | 0 <= i < |cands|
          ensures cands[i].id in ids || exists k :: |trip| <= k < |r| && r[k].id == cands[i].id
        {
          if i > 0 {
            assert cands[i] == cands[1..][i - 1];
            if cands[i].id !in ids' {
              var k :| |trip'| <= k < |r| && r[k].id == cands[1..][i - 1].id;
            }
          }
        }
      }
    }
  }

  /** `existingIds` at the start of padding. */
  function IdSet(ps: seq<Place>): (s: set<string>)
    ensures forall p :: p in ps ==> p.id in s
    ensures forall x :: x in s ==> exists i :: 0 <= i < |ps| && ps[i].id == x
  {
    Elements(Ids(ps))
  }

  /** The padding loop over the ordered candidates. */
  method AppendCandidates(trip: seq<Place>, cands: seq<Place>, target: nat) returns (r: seq<Place>)
    ensures r == Fill(trip, IdSet(trip), cands, target)
  {
    ghost var goal := Fill(trip, IdSet(trip), cands, target);
    r := trip;
    var ids := IdSet(trip);
    var i := 0;
    while i < |cands|
      invariant 0 <= i <= |cands|
      invariant Fill(r, ids, cands[i..], target) == goal
      invariant |r| < target || i == 0
      decreases |cands| - i
    {
      var d := cands[i];
      assert cands[i..][0] == d && cands[i..][1..] == cands[i + 1..];
      if d.id !in ids && |r| < target {
        r := r + [d];
        ids := ids + {d.id};
      }
      if |r| >= target {
        return;
      }
      i := i + 1;
    }
  }

  // ---------------------------------------------------------------------------
  // The culinary guarantee

  predicate IsKuliner(p: Place)
  {
    p.category == VStr("Kuliner")
  }

  function KulinerCatalog(): Catalog -> bool
  {
    (c: Catalog) => c.category == VStr("Kuliner")
  }

  /**
   * A trip without a culinary place gets one appended: the first culinary
   * record of the catalog, or the stand-in when the catalog has none.
   */
  function EnsureCulinary(trip: seq<Place>, all: seq<Catalog>): (r: seq<Place>)
    ensures exists i :: 0 <= i < |r| && IsKuliner(r[i])
    ensures |trip| <= |r| <= |trip| + 1 && r[..|trip|] == trip
    ensures (exists i :: 0 <= i < |trip| && IsKuliner(trip[i])) <==> r == trip
    ensures |r| == |trip| + 1 ==>
              (r[|trip|] == DummyCulinary && Find(all, KulinerCatalog()).None?)
              || (Find(all, KulinerCatalog()).Some? && r[|trip|] == CulinaryFromCatalog(Find(all, KulinerCatalog()).value))
  {
    if exists i :: 0 <= i < |trip| && IsKuliner(trip[i]) then trip
    else
      var extra := match Find(all, KulinerCatalog())
                   case Some(c) => CulinaryFromCatalog(c)
                   case None => DummyCulinary;
      assert IsKuliner((trip + [extra])[|trip|]);
      trip + [extra]
  }

  // ---------------------------------------------------------------------------
  // The whole selection

  /** `selectedDestinations.map(...)`: every trip-list entry with its defaults. */
  function Normalise(selected: seq<Selected>): (ps: seq<Place>)
    ensures |ps| == |selected|
    ensures forall i :: 0 <= i < |selected| ==> ps[i] == FromSelected(selected[i])
  {
    if selected == [] then [] else [FromSelected(selected[0])] + Normalise(selected[1..])
  }

  /**
   * The exceptions selection can raise for the answers: the environment
   * filter's, only when an environment other than empty or `both` is chosen,
   * and the priority sort's, only when the priority reads descriptions.
   */
  predicate SelectionFault(prefs: Prefs, f: Fault)
  {
    || (f == EnvironmentFault && prefs.environment != "" && prefs.environment != "both")
    || (f == DescriptionFault && ReadsDescription(prefs.priority))
  }

  /** A catalog setting on which the environment filter's `.toLowerCase()` throws. */
  predicate BadSetting(c: Catalog)
  {
    Truthy(c.indoorOutdoor) && !c.indoorOutdoor.VStr?
  }

  /** A catalog description on which the priority sort's `.toLowerCase()` throws. */
  predicate BadDescription(c: Catalog)
  {
    Truthy(c.description) && !c.description.VStr?
  }

  /** The candidates the environment filter sees: catalog places new to the trip, in the chosen categories. */
  function Screened(prefs: Prefs, trip: seq<Place>, all: seq<Catalog>, available: nat): seq<Place>
  {
    CategoryFilter(Filter(Candidates(all), Fresh(IdSet(trip))), prefs.category, available)
  }

  lemma ScreenedFresh(prefs: Prefs, trip: seq<Place>, all: seq<Catalog>, available: nat)
    ensures forall x :: x in Screened(prefs, trip, all, available) ==> x in Candidates(all) && x.id !in IdSet(trip)
  {
    var c0 := Filter(Candidates(all), Fresh(IdSet(trip)));
    FilterMembers(Candidates(all), Fresh(IdSet(trip)));
    FilterMembers(c0, InCategories(prefs.category));
    forall x | x in Screened(prefs, trip, all, available)
      ensures x in Candidates(all) && x.id !in IdSet(trip)
    {
      assert x in c0;
      assert Fresh(IdSet(trip))(x);
    }
  }

  /** The candidates the priority sort sees, once the environment filter has passed. */
  function Affordables(prefs: Prefs, c2: seq<Place>, target: nat): seq<Place>
  {
    BudgetFilter(c2, prefs.budget, target)
  }

  /** The ordered padding candidates, or the exception of the environment filter or the priority sort. */
  function Pool(prefs: Prefs, trip: seq<Place>, all: seq<Catalog>, available: nat, target: nat): (r: Result<seq<Place>>)
    ensures r.Throws? ==> SelectionFault(prefs, r.fault)
  {
    match EnvFilter(Screened(prefs, trip, all, available), prefs.environment)
    case Throws(f) => Throws(f)
    case Ok(c2) => PrioritySort(Affordables(prefs, c2, target), prefs.priority)
  }

  /** The environment filter and the budget filter keep only candidates they were given. */
  lemma EnvBudgetMembers(prefs: Prefs, c1: seq<Place>, target: nat)
    requires EnvFilter(c1, prefs.environment).Ok?
    ensures forall x :: x in Affordables(prefs, EnvFilter(c1, prefs.environment).value, target) ==> x in c1
  {
    var c2 := EnvFilter(c1, prefs.environment).value;
    FilterMembers(c1, EnvFits(prefs.environment));
    FilterMembers(c2, Affordable(prefs.budget));
    BudgetFilterApplied(c2, prefs.budget, target);
  }

  /** A padding candidate made from a catalog record throws where the record holds a bad value. */
  lemma CandidateThrows(c: Catalog)
    ensures EnvThrows(FromCatalog(c)) <==> BadSetting(c)
    ensures DescriptionThrows(FromCatalog(c)) <==> BadDescription(c)
    ensures CategoryThrows(FromCatalog(c).category) <==> CategoryThrows(c.category)
  {
  }

  /** Every padding candidate is a catalog place whose id is not yet in the trip, ordered by the priority. */
  lemma PoolFresh(prefs: Prefs, trip: seq<Place>, all: seq<Catalog>, available: nat, target: nat)
    ensures var c := Pool(prefs, trip, all, available, target);
            c.Ok? ==> forall x :: x in c.value ==> x in Candidates(all) && x.id !in IdSet(trip)
    ensures var c := Pool(prefs, trip, all, available, target);
            c.Throws? ==> SelectionFault(prefs, c.fault)
  {
    var c1 := Screened(prefs, trip, all, available);
    ScreenedFresh(prefs, trip, all, available);
    var e := EnvFilter(c1, prefs.environment);
    if e.Ok? {
      EnvBudgetMembers(prefs, c1, target);
      var c3 := Affordables(prefs, e.value, target);
      PrioritySortPermutes(c3, prefs.priority);
      var r := PrioritySort(c3, prefs.priority);
      if r.Ok? {
        forall x | x in r.value
          ensures x in Candidates(all) && x.id !in IdSet(trip)
        {
          assert x in multiset(c3);
        }
      }
    }
  }

  /**
   * An exception of the pool comes from a catalog record with a truthy
   * non-string setting, for the environment filter, or description, for the
   * priority sort.
   */
  lemma PoolThrows(prefs: Prefs, trip: seq<Place>, all: seq<Catalog>, available: nat, target: nat)
    ensures var c := Pool(prefs, trip, all, available, target);
            c.Throws? && c.fault == EnvironmentFault ==> exists k :: k in all && BadSetting(k)
    ensures var c := Pool(prefs, trip, all, available, target);
            c.Throws? && c.fault == DescriptionFault ==> exists k :: k in all && BadDescription(k)
  {
    var c1 := Screened(prefs, trip, all, available);
    ScreenedFresh(prefs, trip, all, available);
    var e := EnvFilter(c1, prefs.environment);
    if e.Throws? {
      assert Pool(prefs, trip, all, available, target) == Throws(EnvironmentFault);
      var i :| 0 <= i < |c1| && EnvThrows(c1[i]);
      CandidateOf(all, c1[i]);
    } else {
      EnvBudgetMembers(prefs, c1, target);
      var c3 := Affordables(prefs, e.value, target);
      if PrioritySort(c3, prefs.priority).Throws? {
        var i :| 0 <= i < |c3| && DescriptionThrows(c3[i]);
        assert c3[i] in c1;
        CandidateOf(all, c3[i]);
      }
    }
  }

  /** A padding candidate is made from some catalog record, whose bad values it shares. */
  lemma CandidateOf(all: seq<Catalog>, x: Place)
    requires x in Candidates(all)
    ensures exists k :: k in all && x == FromCatalog(k)
    ensures EnvThrows(x) ==> exists k :: k in all && BadSetting(k)
    ensures DescriptionThrows(x) ==> exists k :: k in all && BadDescription(k)
    ensures CategoryThrows(x.category) ==> exists k :: k in all && CategoryThrows(k.category)
  {
    var i :| 0 <= i < |Candidates(all)| && Candidates(all)[i] == x;
    CandidateThrows(all[i]);
  }

  /** The trip after padding (padding runs only below target), or the exception of the pool. */
  function Pad(prefs: Prefs, trip: seq<Place>, all: seq<Catalog>, available: nat): (r: Result<seq<Place>>)
    ensures |trip| >= TargetCount(prefs.travelStyle, prefs.duration) ==> r == Ok(trip)
    ensures r.Throws? ==> SelectionFault(prefs, r.fault)
  {
    var target := TargetCount(prefs.travelStyle, prefs.duration);
    if |trip| >= target then Ok(trip)
    else
      match Pool(prefs, trip, all, available, target)
      case Throws(f) => Throws(f)
      case Ok(c) => Ok(Fill(trip, IdSet(trip), c, target))
  }

  /**
   * Padding keeps the trip as a prefix; a trip below target is never padded
   * past it and one at or over it is left alone; every added place is a
   * catalog place with an id new to the trip, and no two added places share
   * an id. An exception comes from a catalog record with a bad setting or
   * description.
   */
  lemma PadShape(prefs: Prefs, trip: seq<Place>, all: seq<Catalog>, available: nat)
    ensures var target := TargetCount(prefs.travelStyle, prefs.duration);
            var r := Pad(prefs, trip, all, available);
            r.Ok? ==>
              && |r.value| >= |trip| && r.value[..|trip|] == trip
              && (|trip| >= target ==> r.value == trip)
              && (|trip| < target ==> |r.value| <= target)
              && (forall k :: |trip| <= k < |r.value| ==> r.value[k] in Candidates(all) && r.value[k].id !in Ids(trip))
              && (forall k, l :: |trip| <= k < l < |r.value| ==> r.value[k].id != r.value[l].id)
    ensures var r := Pad(prefs, trip, all, available);
            r.Throws? ==> SelectionFault(prefs, r.fault)
    ensures var r := Pad(prefs, trip, all, available);
            r.Throws? && r.fault == EnvironmentFault ==> exists k :: k in all && BadSetting(k)
    ensures var r := Pad(prefs, trip, all, available);
            r.Throws? && r.fault == DescriptionFault ==> exists k :: k in all && BadDescription(k)
  {
    var target := TargetCount(prefs.travelStyle, prefs.duration);
    if |trip| < target {
      PoolFresh(prefs, trip, all, available, target);
      PoolThrows(prefs, trip, all, available, target);
      var c := Pool(prefs, trip, all, available, target);
      if c.Ok? {
        FillPrefix(trip, IdSet(trip), c.value, target);
        FillFresh(trip, IdSet(trip), c.value, target);
      }
    }
  }

  /** Candidate selection from the answers, the trip list and the catalog, or the exception it raises. */
  function Select(prefs: Prefs, selected: seq<Selected>, all: seq<Catalog>, available: nat): (r: Result<seq<Place>>)
    ensures r.Throws? ==> SelectionFault(prefs, r.fault)
  {
    match Pad(prefs, Normalise(selected), all, available)
    case Throws(f) => Throws(f)
    case Ok(t) => Ok(EnsureCulinary(t, all))
  }

  /** A place of the selection: a trip-list entry, a padding candidate or the culinary place added last. */
  predicate Sourced(p: Place, selected: seq<Selected>, all: seq<Catalog>)
  {
    || (exists s :: s in selected && p == FromSelected(s))
    || p in Candidates(all)
    || (exists k :: k in all && p == CulinaryFromCatalog(k))
    || p == DummyCulinary
  }

  /**
   * What the selection guarantees: the user's own destinations come first
   * and in order, a culinary place is always present, the list holds at most
   * one place beyond the larger of the trip list and the target. It throws only for an
   * environment answer other than empty or `both` and a catalog record with
   * a truthy non-string setting, or for a priority that reads descriptions
   * and a catalog record with a truthy non-string description.
   */
  lemma SelectShape(prefs: Prefs, selected: seq<Selected>, all: seq<Catalog>, available: nat)
    ensures var r := Select(prefs, selected, all, available);
            var n := |selected|;
            var target := TargetCount(prefs.travelStyle, prefs.duration);
            r.Ok? ==>
              && |r.value| >= n && r.value[..n] == Normalise(selected)
              && (exists i :: 0 <= i < |r.value| && IsKuliner(r.value[i]))
              && |r.value| <= (if n >= target then n else target) + 1
    ensures var r := Select(prefs, selected, all, available);
            r.Throws? ==> SelectionFault(prefs, r.fault)
    ensures var r := Select(prefs, selected, all, available);
            r.Throws? && r.fault == EnvironmentFault ==> exists k :: k in all && BadSetting(k)
    ensures var r := Select(prefs, selected, all, available);
            r.Throws? && r.fault == DescriptionFault ==> exists k :: k in all && BadDescription(k)
  {
    SelectThrows(prefs, selected, all, available);
    var trip := Normalise(selected);
    PadShape(prefs, trip, all, available);
    var p := Pad(prefs, trip, all, available);
    if p.Ok? {
      var r := EnsureCulinary(p.value, all);
      assert Select(prefs, selected, all, available) == Ok(r);
      assert r[..|trip|] == r[..|p.value|][..|trip|];
    }
  }

  /** Every selected place comes from the trip list or the catalog. */
  lemma SelectSources(prefs: Prefs, selected: seq<Selected>, all: seq<Catalog>, available: nat)
    ensures var r := Select(prefs, selected, all, available);
            r.Ok? ==> forall p :: p in r.value ==> Sourced(p, selected, all)
  {
    var trip := Normalise(selected);
    PadShape(prefs, trip, all, available);
    var p := Pad(prefs, trip, all, available);
    if p.Ok? {
      SelectSourced(selected, p.value, all);
    }
  }

  /** An exception of the selection is the pool's, and comes from a catalog record with a bad setting or description. */
  lemma SelectThrows(prefs: Prefs, selected: seq<Selected>, all: seq<Catalog>, available: nat)
    ensures var r := Select(prefs, selected, all, available);
            r.Throws? ==> r == Pad(prefs, Normalise(selected), all, available)
    ensures var r := Select(prefs, selected, all, available);
            r.Throws? && r.fault == EnvironmentFault ==> exists k :: k in all && BadSetting(k)
    ensures var r := Select(prefs, selected, all, available);
            r.Throws? && r.fault == DescriptionFault ==> exists k :: k in all && BadDescription(k)
  {
    PadShape(prefs, Normalise(selected), all, available);
  }

  /** Every place of a padded trip list, with its culinary place, comes from the trip list or the catalog. */
  lemma SelectSourced(selected: seq<Selected>, padded: seq<Place>, all: seq<Catalog>)
    requires |padded| >= |selected| && padded[..|selected|] == Normalise(selected)
    requires forall k :: |selected| <= k < |padded| ==> padded[k] in Candidates(all)
    ensures forall p :: p in EnsureCulinary(padded, all) ==> Sourced(p, selected, all)
  {
    var r := EnsureCulinary(padded, all);
    forall x | x in r
      ensures Sourced(x, selected, all)
    {
      var i :| 0 <= i < |r| && r[i] == x;
      if i < |selected| {
        assert x == padded[..|selected|][i] == FromSelected(selected[i]);
        assert selected[i] in selected;
      } else if i < |padded| {
        assert x in Candidates(all);
      }
    }
  }
}
