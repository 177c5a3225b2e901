/**
 * `optimizeRouteByLocation`: the places are grouped by area (areas in the
 * order they first occur), a start area is chosen, and the areas are then
 * visited greedily, each time moving to the unvisited area with the lowest
 * score `distance - 0.5 * count`, here scaled by two to `2 * distance - count`.
 */
module Route {
  import opened JsValues
  import opened Geography
  import opened Places
  import opened Lists

  /** The area the optimiser files a place under. */
  function AreaKey(p: Place): Area
  {
    AreaFromLocation(RouteLocation(p))
  }

  /** `{ ...dest, area }`. */
  function Tag(p: Place, a: Area): Place
  {
    p.(area := Some(a))
  }

  /** `destinationsByArea[a]` after the grouping pass: the places of area `a`, tagged, in input order. */
  function Group(key: Place -> Area, ps: seq<Place>, a: Area): (g: seq<Place>)
    ensures |g| <= |ps|
  {
    if ps == [] then []
    else Group(key, ps[..|ps| - 1], a) + (if key(ps[|ps| - 1]) == a then [Tag(ps[|ps| - 1], a)] else [])
  }

  /** Every place of a group is tagged with the group's area. */
  lemma {:induction false} GroupTagged(key: Place -> Area, ps: seq<Place>, a: Area)
    ensures forall i :: 0 <= i < |Group(key, ps, a)| ==> Group(key, ps, a)[i].area == Some(a)
    decreases |ps|
  {
    if ps != [] {
      GroupTagged(key, ps[..|ps| - 1], a);
    }
  }

  /** `Object.keys(destinationsByArea)`: the areas in the order they first occur. */
  function Keys(key: Place -> Area, ps: seq<Place>): (ks: seq<Area>)
  {
    if ps == [] then []
    else
      var k := Keys(key, ps[..|ps| - 1]);
      if key(ps[|ps| - 1]) in k then k else k + [key(ps[|ps| - 1])]
  }

  function KeySet(key: Place -> Area, ps: seq<Place>): set<Area>
  {
    set a | a in Keys(key, ps)
  }

  /** `distance - destinationCount * 0.5`, doubled. */
  function Score(key: Place -> Area, ps: seq<Place>, current: Area, a: Area): int
  {
    2 * AreaDistance(Some(current), Some(a)) - |Group(key, ps, a)|
  }

  /** An area `findNextBestArea` may pick: not yet visited and with places. */
  predicate Candidate(key: Place -> Area, ps: seq<Place>, visited: set<Area>, a: Area)
  {
    a !in visited && |Group(key, ps, a)| > 0
  }

  /** The area `findNextBestArea` holds after scanning the keys `ks`: a strictly lower score replaces it. */
  function BestOf(key: Place -> Area, ps: seq<Place>, ks: seq<Area>, current: Area, visited: set<Area>): (best: Option<Area>)
  {
    if ks == [] then None
    else
      var b := BestOf(key, ps, ks[..|ks| - 1], current, visited);
      var a := ks[|ks| - 1];
      if !Candidate(key, ps, visited, a) then b
      else if b.None? || Score(key, ps, current, a) < Score(key, ps, current, b.value) then Some(a)
      else b
  }

  /** `findNextBestArea(current)`. */
  function NextArea(key: Place -> Area, ps: seq<Place>, current: Area, visited: set<Area>): Option<Area>
  {
    BestOf(key, ps, Keys(key, ps), current, visited)
  }

  /** The `reduce` that picks the start area when none is given: a strictly larger group replaces the one held. */
  function ReduceMax(key: Place -> Area, ps: seq<Place>, ks: seq<Area>): Area
    requires ks != []
  {
    if |ks| == 1 then ks[0]
    else
      var a := ReduceMax(key, ps, ks[..|ks| - 1]);
      if |Group(key, ps, a)| > |Group(key, ps, ks[|ks| - 1])| then a else ks[|ks| - 1]
  }

  function StartArea(key: Place -> Area, ps: seq<Place>, start: Option<Area>): Area
    requires ps != []
  {
    KeysNonEmpty(key, ps);
    if start.Some? then start.value else ReduceMax(key, ps, Keys(key, ps))
  }

  /** The keys not yet visited, in key order (the final flush loop). */
  function Remaining(ks: seq<Area>, visited: set<Area>): (r: seq<Area>)
  {
    if ks == [] then [] else (if ks[0] in visited then [] else [ks[0]]) + Remaining(ks[1..], visited)
  }

  /** The order in which the `while` loop visits the areas, from `current` with `visited` already done. */
  function Walk(key: Place -> Area, ps: seq<Place>, current: Area, visited: set<Area>): (w: seq<Area>)
    requires visited <= KeySet(key, ps)
    decreases WalkMeasure(key, ps, current, visited)
  {
    if KeySet(key, ps) <= visited then []
    else
      var here := current in KeySet(key, ps) - visited;
      var vis := if here then visited + {current} else visited;
      var v := if here then [current] else [];
      BestOfCandidate(key, ps, Keys(key, ps), current, vis);
      match NextArea(key, ps, current, vis)
      case Some(b) =>
        assert here ==> KeySet(key, ps) - vis < KeySet(key, ps) - visited by {
          assert here ==> current in KeySet(key, ps) - visited && current !in KeySet(key, ps) - vis;
        }
        v + Walk(key, ps, b, vis)
      case None => v + Remaining(Keys(key, ps), vis)
  }

  /** The route: the groups of the visited areas, one after the other. */
  function Flatten(key: Place -> Area, ps: seq<Place>, order: seq<Area>): seq<Place>
  {
    if order == [] then [] else Group(key, ps, order[0]) + Flatten(key, ps, order[1..])
  }

  // ---------------------------------------------------------------------------
  // The optimiser

  /** Every area of `keys` has its group in `groups`, and nothing else is there. */
  predicate GroupsOf(key: Place -> Area, ps: seq<Place>, keys: seq<Area>, groups: map<Area, seq<Place>>)
  {
    (forall a :: a in groups <==> a in keys) && forall a :: a in groups ==> groups[a] == Group(key, ps, a)
  }

  /** `optimizeRouteByLocation(destinations, startArea)`, which files each place under `getAreaFromLocation`. */
  method OptimizeRoute(ps: seq<Place>, start: Option<Area>) returns (route: seq<Place>)
    ensures |ps| <= 1 ==> route == ps
    ensures |ps| > 1 ==> route == Flatten(AreaKey, ps, Walk(AreaKey, ps, StartArea(AreaKey, ps, start), {}))
  {
    route := OptimizeRouteBy(AreaKey, ps, start);
  }

  /** The optimiser, for any way `key` of filing a place under an area. */
  method OptimizeRouteBy(key: Place -> Area, ps: seq<Place>, start: Option<Area>) returns (route: seq<Place>)
    ensures |ps| <= 1 ==> route == ps
    ensures |ps| > 1 ==> route == Flatten(key, ps, Walk(key, ps, StartArea(key, ps, start), {}))
  {
    if |ps| <= 1 {
      return ps;
    }
    var keys, groups := GroupByArea(key, ps);
    KeysNonEmpty(key, ps);
    var current: Area;
    if start.Some? {
      current := start.value;
    } else {
      current := LargestArea(key, ps, keys, groups);
    }
    route := VisitAreas(key, ps, keys, groups, current);
  }

  /** The `forEach` that fills `destinationsByArea`. */
  method GroupByArea(key: Place -> Area, ps: seq<Place>) returns (keys: seq<Area>, groups: map<Area, seq<Place>>)
    ensures keys == Keys(key, ps) && GroupsOf(key, ps, keys, groups)
  {
    groups := map[];
    keys := [];
    var i := 0;
    while i < |ps|
      invariant 0 <= i <= |ps|
      invariant keys == Keys(key, ps[..i])
      invariant GroupsOf(key, ps[..i], keys, groups)
    {
      var p := ps[i];
      var area := key(p);
      GroupStep(key, ps, i, keys, groups);
      if area !in groups {
        groups := groups[area := []];
        keys := keys + [area];
      }
      groups := groups[area := groups[area] + [Tag(p, area)]];
      i := i + 1;
    }
    assert ps[..|ps|] == ps;
  }

  /** One pass of the grouping `forEach`: the place goes to the end of its area's group, a new area to the end of the keys. */
  lemma GroupStep(key: Place -> Area, ps: seq<Place>, i: nat, keys: seq<Area>, groups: map<Area, seq<Place>>)
    requires i < |ps| && keys == Keys(key, ps[..i]) && GroupsOf(key, ps[..i], keys, groups)
    ensures var area := key(ps[i]);
            var keys1 := if area in groups then keys else keys + [area];
            var g0 := if area in groups then groups[area] else [];
            && keys1 == Keys(key, ps[..i + 1])
            && GroupsOf(key, ps[..i + 1], keys1, groups[area := g0 + [Tag(ps[i], area)]])
  {
    var area := key(ps[i]);
    assert ps[..i + 1][..i] == ps[..i] && ps[..i + 1][i] == ps[i];
    KeysGroup(key, ps[..i], area);
    var g0 := if area in groups then groups[area] else [];
    assert g0 == Group(key, ps[..i], area);
    var groups1 := groups[area := g0 + [Tag(ps[i], area)]];
    forall a | a in groups1
      ensures groups1[a] == Group(key, ps[..i + 1], a)
    {
      GroupSnoc(key, ps, i, a);
    }
  }

  lemma GroupSnoc(key: Place -> Area, ps: seq<Place>, i: nat, a: Area)
    requires i < |ps|
    ensures Group(key, ps[..i + 1], a) == Group(key, ps[..i], a) + (if key(ps[i]) == a then [Tag(ps[i], a)] else [])
  {
    assert ps[..i + 1][..i] == ps[..i] && ps[..i + 1][i] == ps[i];
  }

  /** The `reduce` over the keys that picks the start area when none is given. */
  method LargestArea(ghost key: Place -> Area, ghost ps: seq<Place>, keys: seq<Area>, groups: map<Area, seq<Place>>)
    returns (current: Area)
    requires GroupsOf(key, ps, keys, groups) && keys != []
    ensures current == ReduceMax(key, ps, keys)
  {
    current := keys[0];
    var j := 1;
    while j < |keys|
      invariant 1 <= j <= |keys|
      invariant current in keys && current == ReduceMax(key, ps, keys[..j])
    {
      ReduceMaxSnoc(key, ps, keys, j);
      assert groups[current] == Group(key, ps, current) && groups[keys[j]] == Group(key, ps, keys[j]);
      if !(|groups[current]| > |groups[keys[j]]|) {
        current := keys[j];
      }
      j := j + 1;
    }
    assert keys[..|keys|] == keys;
  }

  /** One more key in the `reduce`. */
  lemma ReduceMaxSnoc(key: Place -> Area, ps: seq<Place>, ks: seq<Area>, j: nat)
    requires 1 <= j < |ks|
    ensures var a := ReduceMax(key, ps, ks[..j]);
            ReduceMax(key, ps, ks[..j + 1]) == if |Group(key, ps, a)| > |Group(key, ps, ks[j])| then a else ks[j]
  {
    assert ks[..j + 1][..j] == ks[..j] && ks[..j + 1][j] == ks[j];
  }

  /** The `while` loop over areas, from `start`. */
  method VisitAreas(ghost key: Place -> Area, ghost ps: seq<Place>, keys: seq<Area>, groups: map<Area, seq<Place>>,
                    start: Area) returns (route: seq<Place>)
    requires keys == Keys(key, ps) && GroupsOf(key, ps, keys, groups)
    ensures route == Flatten(key, ps, Walk(key, ps, start, {}))
  {
    ghost var goal := Flatten(key, ps, Walk(key, ps, start, {}));
    var current := start;
    var visited: set<Area> := {};
    route := [];
    GuardMeans(key, ps, keys, groups, visited);
    while exists a :: a in keys && a !in visited && |groups[a]| > 0
      invariant visited <= KeySet(key, ps)
      invariant route + Flatten(key, ps, Walk(key, ps, current, visited)) == goal
      decreases WalkMeasure(key, ps, current, visited)
    {
      GuardMeans(key, ps, keys, groups, visited);
      var next;
      route, visited, next := VisitOne(key, ps, keys, groups, route, current, visited);
      if next.None? {
        break;
      }
      current := next.value;
    }
    GuardMeans(key, ps, keys, groups, visited);
    if KeySet(key, ps) <= visited {
      assert Walk(key, ps, current, visited) == [];
    }
  }

  /** The measure the walk decreases: unvisited areas count twice, and once more while `current` is done. */
  function WalkMeasure(key: Place -> Area, ps: seq<Place>, current: Area, visited: set<Area>): nat
  {
    2 * |KeySet(key, ps) - visited| + (if current in KeySet(key, ps) - visited then 0 else 1)
  }

  /**
   * One pass of the `while` loop: the group of `current` is appended when it
   * is still to be visited, then the next area is picked; when none is
   * left the remaining groups are flushed and no next area is returned.
   */
  method VisitOne(ghost key: Place -> Area, ghost ps: seq<Place>, keys: seq<Area>, groups: map<Area, seq<Place>>,
                  route0: seq<Place>, current: Area, visited0: set<Area>)
    returns (route: seq<Place>, visited: set<Area>, next: Option<Area>)
    requires keys == Keys(key, ps) && GroupsOf(key, ps, keys, groups)
    requires visited0 <= KeySet(key, ps) && !(KeySet(key, ps) <= visited0)
    ensures visited <= KeySet(key, ps)
    ensures next.None? ==> route == route0 + Flatten(key, ps, Walk(key, ps, current, visited0))
    ensures next.Some? ==> route + Flatten(key, ps, Walk(key, ps, next.value, visited))
                           == route0 + Flatten(key, ps, Walk(key, ps, current, visited0))
    ensures next.Some? ==> WalkMeasure(key, ps, next.value, visited) < WalkMeasure(key, ps, current, visited0)
  {
    KeysGroup(key, ps, current);
    route, visited := route0, visited0;
    var here := !(current in visited) && current in groups && |groups[current]| > 0;
    assert here <==> current in KeySet(key, ps) - visited;
    ghost var head: seq<Place> := [];
    if here {
      head := groups[current];
      route := route + groups[current];
      visited := visited + {current};
    }
    assert head == if current in KeySet(key, ps) - visited0 then Group(key, ps, current) else [];
    assert route == route0 + head;
    WalkOn(key, ps, current, visited0);
    next := FindNextBest(key, ps, groups, keys, current, visited);
    if next.Some? {
      ghost var tail := Flatten(key, ps, Walk(key, ps, next.value, visited));
      assert Flatten(key, ps, Walk(key, ps, current, visited0)) == head + tail;
      ConcatAssoc(route0, head, tail);
    } else {
      ghost var tail := Flatten(key, ps, Remaining(keys, visited));
      assert Flatten(key, ps, Walk(key, ps, current, visited0)) == head + tail;
      var done;
      route, done := FlushRemaining(key, ps, keys, groups, route, visited);
      ConcatAssoc(route0, head, tail);
    }
  }

  /**
   * One step of the walk, flattened: the group of `current` when it is
   * still to be visited, then the rest of the walk from the next area, or
   * the remaining areas when there is none.
   */
  lemma WalkOn(key: Place -> Area, ps: seq<Place>, current: Area, visited: set<Area>)
    requires visited <= KeySet(key, ps) && !(KeySet(key, ps) <= visited)
    ensures var here := current in KeySet(key, ps) - visited;
            var vis := if here then visited + {current} else visited;
            var head := if here then Group(key, ps, current) else [];
            && vis <= KeySet(key, ps)
            && (NextArea(key, ps, current, vis).Some? ==>
                  var b := NextArea(key, ps, current, vis).value;
                  && Flatten(key, ps, Walk(key, ps, current, visited)) == head + Flatten(key, ps, Walk(key, ps, b, vis))
                  && WalkMeasure(key, ps, b, vis) < WalkMeasure(key, ps, current, visited))
            && (NextArea(key, ps, current, vis).None? ==>
                  Flatten(key, ps, Walk(key, ps, current, visited)) == head + Flatten(key, ps, Remaining(Keys(key, ps), vis)))
  {
    WalkStep(key, ps, current, visited);
    var here := current in KeySet(key, ps) - visited;
    var vis := if here then visited + {current} else visited;
    var v := if here then [current] else [];
    assert Flatten(key, ps, v) == if here then Group(key, ps, current) else [] by {
      if here {
        assert Flatten(key, ps, v) == Group(key, ps, current) + Flatten(key, ps, []);
      }
    }
    BestOfCandidate(key, ps, Keys(key, ps), current, vis);
    match NextArea(key, ps, current, vis)
    case Some(b) =>
      FlattenAppend(key, ps, v, Walk(key, ps, b, vis));
      assert here ==> KeySet(key, ps) - vis < KeySet(key, ps) - visited by {
        assert here ==> current in KeySet(key, ps) - visited && current !in KeySet(key, ps) - vis;
      }
    case None =>
      FlattenAppend(key, ps, v, Remaining(Keys(key, ps), vis));
  }

  /** The loop after `findNextBestArea` finds nothing: every unvisited area's group, in key order. */
  method FlushRemaining(ghost key: Place -> Area, ghost ps: seq<Place>, keys: seq<Area>, groups: map<Area, seq<Place>>,
                        route0: seq<Place>, visited0: set<Area>) returns (route: seq<Place>, visited: set<Area>)
    requires keys == Keys(key, ps) && GroupsOf(key, ps, keys, groups)
    ensures route == route0 + Flatten(key, ps, Remaining(keys, visited0))
  {
    route, visited := route0, visited0;
    ghost var goal := route0 + Flatten(key, ps, Remaining(keys, visited0));
    var k := 0;
    while k < |keys|
      invariant 0 <= k <= |keys|
      invariant route + Flatten(key, ps, Remaining(keys[k..], visited)) == goal
    {
      var a := keys[k];
      FlushStep(key, ps, keys, groups, k, visited);
      if a !in visited && |groups[a]| > 0 {
        ConcatAssoc(route, groups[a], Flatten(key, ps, Remaining(keys[k + 1..], visited + {a})));
        route := route + groups[a];
        visited := visited + {a};
      }
      k := k + 1;
    }
  }

  /** One pass of the flushing loop: the area at `k` contributes its group when it is still to be visited. */
  lemma FlushStep(key: Place -> Area, ps: seq<Place>, keys: seq<Area>, groups: map<Area, seq<Place>>, k: nat,
                  visited: set<Area>)
    requires keys == Keys(key, ps) && GroupsOf(key, ps, keys, groups) && k < |keys|
    ensures keys[k] !in visited && |groups[keys[k]]| > 0 ==>
              Flatten(key, ps, Remaining(keys[k..], visited))
              == groups[keys[k]] + Flatten(key, ps, Remaining(keys[k + 1..], visited + {keys[k]}))
    ensures !(keys[k] !in visited && |groups[keys[k]]| > 0) ==>
              Flatten(key, ps, Remaining(keys[k..], visited)) == Flatten(key, ps, Remaining(keys[k + 1..], visited))
  {
    KeysDistinct(key, ps);
    var a := keys[k];
    var rest := Remaining(keys[k + 1..], visited);
    assert keys[k..][0] == a && keys[k..][1..] == keys[k + 1..];
    if a !in visited && |groups[a]| > 0 {
      assert a !in keys[k + 1..];
      RemainingIgnores(keys[k + 1..], visited, a);
      assert Remaining(keys[k..], visited) == [a] + rest;
      FlattenAppend(key, ps, [a], rest);
      assert Flatten(key, ps, [a]) == Group(key, ps, a) + Flatten(key, ps, []);
    } else {
      KeysGroup(key, ps, a);
      assert Remaining(keys[k..], visited) == rest;
    }
  }

  /** The loop guard of `optimizeRouteByLocation` asks whether some key is still to be visited. */
  lemma GuardMeans(key: Place -> Area, ps: seq<Place>, keys: seq<Area>, groups: map<Area, seq<Place>>, visited: set<Area>)
    requires keys == Keys(key, ps) && GroupsOf(key, ps, keys, groups)
    ensures (exists a :: a in keys && a !in visited && |groups[a]| > 0) <==> !(KeySet(key, ps) <= visited)
  {
    if !(KeySet(key, ps) <= visited) {
      var a :| a in KeySet(key, ps) && a !in visited;
      KeysGroup(key, ps, a);
    }
  }

  lemma {:induction false} RemainingIgnores(ks: seq<Area>, visited: set<Area>, a: Area)
    requires a !in ks
    ensures Remaining(ks, visited + {a}) == Remaining(ks, visited)
  {
    if ks != [] {
      RemainingIgnores(ks[1..], visited, a);
    }
  }

  /** `findNextBestArea(current)`: the first unvisited area, in key order, with the lowest score. */
  method FindNextBest(ghost key: Place -> Area, ghost ps: seq<Place>, groups: map<Area, seq<Place>>, keys: seq<Area>, current: Area,
                      visited: set<Area>) returns (best: Option<Area>)
    requires keys == Keys(key, ps) && GroupsOf(key, ps, keys, groups)
    ensures best == NextArea(key, ps, current, visited)
  {
    best := None;
    var bestScore := 0;
    var i := 0;
    while i < |keys|
      invariant 0 <= i <= |keys|
      invariant best == BestOf(key, ps, keys[..i], current, visited)
      invariant best.Some? ==> bestScore == Score(key, ps, current, best.value)
    {
      var a := keys[i];
      BestOfSnoc(key, ps, keys, current, visited, i);
      assert groups[a] == Group(key, ps, a);
      if !(a in visited || |groups[a]| == 0) {
        var score := 2 * AreaDistance(Some(current), Some(a)) - |groups[a]|;
        assert score == Score(key, ps, current, a);
        if best.None? || score < bestScore {
          bestScore := score;
          best := Some(a);
        }
      }
      i := i + 1;
    }
    assert keys[..|keys|] == keys;
  }

  /** One more key in the scan of `findNextBestArea`. */
  lemma BestOfSnoc(key: Place -> Area, ps: seq<Place>, ks: seq<Area>, current: Area, visited: set<Area>, i: nat)
    requires i < |ks|
    ensures var b := BestOf(key, ps, ks[..i], current, visited);
            var a := ks[i];
            BestOf(key, ps, ks[..i + 1], current, visited) ==
              if !Candidate(key, ps, visited, a) then b
              else if b.None? || Score(key, ps, current, a) < Score(key, ps, current, b.value) then Some(a)
              else b
  {
    assert ks[..i + 1][..i] == ks[..i] && ks[..i + 1][i] == ks[i];
  }

  // ---------------------------------------------------------------------------
  // Facts about grouping

  lemma {:induction false} KeysGroup(key: Place -> Area, ps: seq<Place>, a: Area)
    ensures a in Keys(key, ps) <==> Group(key, ps, a) != []
    ensures a in Keys(key, ps) <==> exists i :: 0 <= i < |ps| && key(ps[i]) == a
    decreases |ps|
  {
    if ps != [] {
      var init := ps[..|ps| - 1];
      KeysGroup(key, init, a);
      if exists i :: 0 <= i < |init| && key(init[i]) == a {
        var i :| 0 <= i < |init| && key(init[i]) == a;
        assert ps[i] == init[i];
      }
      if i :| 0 <= i < |ps| && key(ps[i]) == a {
        if i < |init| {
          assert init[i] == ps[i];
        }
      }
    }
  }

  lemma {:induction false} KeysDistinct(key: Place -> Area, ps: seq<Place>)
    ensures forall i, j :: 0 <= i < j < |Keys(key, ps)| ==> Keys(key, ps)[i] != Keys(key, ps)[j]
    decreases |ps|
  {
    if ps != [] {
      KeysDistinct(key, ps[..|ps| - 1]);
    }
  }

  lemma KeysNonEmpty(key: Place -> Area, ps: seq<Place>)
    requires ps != []
    ensures Keys(key, ps) != []
  {
    KeysGroup(key, ps, key(ps[0]));
  }

  /** A picked area is a candidate among the keys, and none is picked exactly when there is no candidate. */
  lemma {:induction false} BestOfCandidate(key: Place -> Area, ps: seq<Place>, ks: seq<Area>, current: Area, visited: set<Area>)
    ensures var b := BestOf(key, ps, ks, current, visited);
      (b.Some? ==> b.value in ks && Candidate(key, ps, visited, b.value))
      && (b.None? <==> forall a :: a in ks ==> !Candidate(key, ps, visited, a))
    decreases |ks|
  {
    if ks != [] {
      var init := ks[..|ks| - 1];
      BestOfCandidate(key, ps, init, current, visited);
      assert ks == init + [ks[|ks| - 1]];
    }
  }

  /** The area `findNextBestArea` returns scores no worse than any candidate. */
  lemma {:induction false} BestOfIsMinimum(key: Place -> Area, ps: seq<Place>, ks: seq<Area>, current: Area, visited: set<Area>)
    ensures var b := BestOf(key, ps, ks, current, visited);
      b.Some? ==> forall i :: 0 <= i < |ks| && Candidate(key, ps, visited, ks[i]) ==>
                    Score(key, ps, current, b.value) <= Score(key, ps, current, ks[i])
    decreases |ks|
  {
    if ks != [] {
      var init := ks[..|ks| - 1];
      BestOfIsMinimum(key, ps, init, current, visited);
      BestOfCandidate(key, ps, init, current, visited);
      var b := BestOf(key, ps, ks, current, visited);
      if b.Some? {
        forall i | 0 <= i < |ks| && Candidate(key, ps, visited, ks[i])
          ensures Score(key, ps, current, b.value) <= Score(key, ps, current, ks[i])
        {
          if i < |init| {
            assert ks[i] == init[i];
          }
        }
      }
    }
  }

  /**
   * Ties go to the first area in key order: every candidate that comes
   * before the returned area scores strictly worse.
   */
  lemma {:induction false} BestOfIsFirst(key: Place -> Area, ps: seq<Place>, ks: seq<Area>, current: Area, visited: set<Area>)
    requires forall i, j :: 0 <= i < j < |ks| ==> ks[i] != ks[j]
    ensures var b := BestOf(key, ps, ks, current, visited);
      b.Some? ==> forall i, j :: 0 <= i < j < |ks| && ks[j] == b.value && Candidate(key, ps, visited, ks[i]) ==>
                    Score(key, ps, current, b.value) < Score(key, ps, current, ks[i])
    decreases |ks|
  {
    if ks != [] {
      var init := ks[..|ks| - 1];
      var last := ks[|ks| - 1];
      BestOfIsFirst(key, ps, init, current, visited);
      BestOfIsMinimum(key, ps, init, current, visited);
      BestOfCandidate(key, ps, init, current, visited);
      var b0 := BestOf(key, ps, init, current, visited);
      var b := BestOf(key, ps, ks, current, visited);
      if b.Some? {
        forall i, j | 0 <= i < j < |ks| && ks[j] == b.value && Candidate(key, ps, visited, ks[i])
          ensures Score(key, ps, current, b.value) < Score(key, ps, current, ks[i])
        {
          assert ks[i] == init[i];
          if j < |init| {
            assert ks[j] == init[j];
            assert b.value != last;
            assert b == b0;
          } else if b0.Some? {
            var k :| 0 <= k < |init| && init[k] == b0.value;
            assert ks[k] == b0.value;
          }
        }
      }
    }
  }

  /** The start area chosen without a preference has a largest group among the keys. */
  lemma {:induction false} ReduceMaxIsLargest(key: Place -> Area, ps: seq<Place>, ks: seq<Area>)
    requires ks != []
    ensures ReduceMax(key, ps, ks) in ks
    ensures forall i :: 0 <= i < |ks| ==> |Group(key, ps, ks[i])| <= |Group(key, ps, ReduceMax(key, ps, ks))|
    decreases |ks|
  {
    if |ks| > 1 {
      var init := ks[..|ks| - 1];
      ReduceMaxIsLargest(key, ps, init);
      forall i | 0 <= i < |ks|
        ensures |Group(key, ps, ks[i])| <= |Group(key, ps, ReduceMax(key, ps, ks))|
      {
        if i < |init| {
          assert ks[i] == init[i];
        }
      }
    }
  }

  /** Ties go to the last key: no key after the chosen one has a group as large. */
  lemma {:induction false} ReduceMaxIsLast(key: Place -> Area, ps: seq<Place>, ks: seq<Area>)
    requires ks != []
    requires forall i, j :: 0 <= i < j < |ks| ==> ks[i] != ks[j]
    ensures forall i, j :: 0 <= i < j < |ks| && ks[i] == ReduceMax(key, ps, ks) ==>
              |Group(key, ps, ks[j])| < |Group(key, ps, ks[i])|
    decreases |ks|
  {
    if |ks| > 1 {
      var init := ks[..|ks| - 1];
      var last := ks[|ks| - 1];
      ReduceMaxIsLast(key, ps, init);
      ReduceMaxIsLargest(key, ps, init);
      var m0 := ReduceMax(key, ps, init);
      var m := ReduceMax(key, ps, ks);
      forall i, j | 0 <= i < j < |ks| && ks[i] == m
        ensures |Group(key, ps, ks[j])| < |Group(key, ps, ks[i])|
      {
        assert ks[i] == init[i];
        if m == last {
          assert false;
        }
        assert m == m0;
        if j < |init| {
          assert ks[j] == init[j];
        }
      }
    }
  }

  // ---------------------------------------------------------------------------
  // Facts about the walk

  lemma ConcatAssoc<T>(a: seq<T>, b: seq<T>, c: seq<T>)
    ensures (a + b) + c == a + (b + c)
  {
  }

  lemma {:induction false} FlattenAppend(key: Place -> Area, ps: seq<Place>, a: seq<Area>, b: seq<Area>)
    ensures Flatten(key, ps, a + b) == Flatten(key, ps, a) + Flatten(key, ps, b)
    decreases |a|
  {
    if a != [] {
      var g := Group(key, ps, a[0]);
      assert (a + b)[0] == a[0] && (a + b)[1..] == a[1..] + b;
      calc {
        Flatten(key, ps, a + b);
        g + Flatten(key, ps, a[1..] + b);
        { FlattenAppend(key, ps, a[1..], b); }
        g + (Flatten(key, ps, a[1..]) + Flatten(key, ps, b));
        { ConcatAssoc(g, Flatten(key, ps, a[1..]), Flatten(key, ps, b)); }
        (g + Flatten(key, ps, a[1..])) + Flatten(key, ps, b);
      }
    } else {
      assert a + b == b;
    }
  }

  /** One iteration of the loop: the visited area (if any) comes first, then the rest of the walk. */
  lemma WalkStep(key: Place -> Area, ps: seq<Place>, current: Area, visited: set<Area>)
    requires visited <= KeySet(key, ps) && !(KeySet(key, ps) <= visited)
    ensures var here := current in KeySet(key, ps) - visited;
      var vis := if here then visited + {current} else visited;
      var v := if here then [current] else [];
      Walk(key, ps, current, visited) ==
        (match NextArea(key, ps, current, vis)
         case Some(b) => v + Walk(key, ps, b, vis)
         case None => v + Remaining(Keys(key, ps), vis))
  {
  }

  // ---------------------------------------------------------------------------
  // The route is a rearrangement of its input

  /** Every place tagged with the area it is filed under, in input order. */
  function TagAll(key: Place -> Area, ps: seq<Place>): (t: seq<Place>)
    ensures |t| == |ps|
    ensures forall i :: 0 <= i < |ps| ==> t[i] == Tag(ps[i], key(ps[i]))
  {
    if ps == [] then [] else TagAll(key, ps[..|ps| - 1]) + [Tag(ps[|ps| - 1], key(ps[|ps| - 1]))]
  }

  /** A group holds exactly the tagged places of its area, as often as they occur. */
  lemma {:induction false} GroupCount(key: Place -> Area, ps: seq<Place>, a: Area, x: Place)
    ensures multiset(Group(key, ps, a))[x] == (if x.area == Some(a) then multiset(TagAll(key, ps))[x] else 0)
    decreases |ps|
  {
    if ps != [] {
      var init, last := ps[..|ps| - 1], ps[|ps| - 1];
      GroupCount(key, init, a, x);
      assert TagAll(key, ps) == TagAll(key, init) + [Tag(last, key(last))];
    } else {
      assert multiset(Group(key, ps, a)) == multiset{};
    }
  }

  /** Flattening distinct areas counts each place once, within the group of its own area. */
  lemma {:induction false} FlattenCount(key: Place -> Area, ps: seq<Place>, order: seq<Area>, x: Place)
    requires Distinct(order)
    ensures multiset(Flatten(key, ps, order))[x] ==
      (if x.area.Some? && x.area.value in order then multiset(TagAll(key, ps))[x] else 0)
    decreases |order|
  {
    if order != [] {
      assert Distinct(order[1..]) by {
        forall i, j | 0 <= i < j < |order[1..]|
          ensures order[1..][i] != order[1..][j]
        {
          assert order[1..][i] == order[i + 1] && order[1..][j] == order[j + 1];
        }
      }
      FlattenCount(key, ps, order[1..], x);
      GroupCount(key, ps, order[0], x);
      assert order == [order[0]] + order[1..];
      if x.area.Some? && x.area.value == order[0] {
        assert x.area.value !in order[1..] by {
          forall k | 0 <= k < |order[1..]|
            ensures order[1..][k] != order[0]
          {
            assert order[1..][k] == order[k + 1];
          }
        }
      }
    }
  }

  /** The areas not yet visited, in key order, each once. */
  lemma {:induction false} RemainingCovers(ks: seq<Area>, visited: set<Area>)
    requires Distinct(ks)
    ensures Distinct(Remaining(ks, visited))
    ensures forall a :: a in Remaining(ks, visited) <==> a in ks && a !in visited
  {
    if ks != [] {
      assert Distinct(ks[1..]) by {
        forall i, j | 0 <= i < j < |ks[1..]|
          ensures ks[1..][i] != ks[1..][j]
        {
          assert ks[1..][i] == ks[i + 1] && ks[1..][j] == ks[j + 1];
        }
      }
      RemainingCovers(ks[1..], visited);
      assert ks[0] !in ks[1..] by {
        forall k | 0 <= k < |ks[1..]|
          ensures ks[1..][k] != ks[0]
        {
          assert ks[1..][k] == ks[k + 1];
        }
      }
      assert ks == [ks[0]] + ks[1..];
    }
  }

  /** The walk visits every area not yet visited, each exactly once, and nothing else. */
  lemma {:induction false} WalkCovers(key: Place -> Area, ps: seq<Place>, current: Area, visited: set<Area>)
    requires visited <= KeySet(key, ps)
    ensures Distinct(Walk(key, ps, current, visited))
    ensures forall a :: a in Walk(key, ps, current, visited) <==> a in KeySet(key, ps) && a !in visited
    decreases WalkMeasure(key, ps, current, visited)
  {
    if !(KeySet(key, ps) <= visited) {
      var here := current in KeySet(key, ps) - visited;
      var vis := if here then visited + {current} else visited;
      var v := if here then [current] else [];
      WalkStep(key, ps, current, visited);
      BestOfCandidate(key, ps, Keys(key, ps), current, vis);
      var next := NextArea(key, ps, current, vis);
      var rest := if next.Some? then Walk(key, ps, next.value, vis) else Remaining(Keys(key, ps), vis);
      if next.Some? {
        assert here ==> KeySet(key, ps) - vis < KeySet(key, ps) - visited by {
          assert here ==> current in KeySet(key, ps) - visited && current !in KeySet(key, ps) - vis;
        }
        WalkCovers(key, ps, next.value, vis);
      } else {
        KeysDistinct(key, ps);
        RemainingCovers(Keys(key, ps), vis);
      }
      assert Walk(key, ps, current, visited) == v + rest;
      assert Distinct(rest) && forall a :: a in rest <==> a in KeySet(key, ps) && a !in vis;
      PrependDistinct(v, rest);
    }
  }

  lemma PrependDistinct<T>(v: seq<T>, rest: seq<T>)
    requires |v| <= 1 && Distinct(rest) && forall x :: x in v ==> x !in rest
    ensures Distinct(v + rest)
    ensures forall x :: x in v + rest <==> x in v || x in rest
  {
    if |v| == 1 {
      forall i, j | 0 <= i < j < |v + rest|
        ensures (v + rest)[i] != (v + rest)[j]
      {
        if i == 0 {
          assert (v + rest)[i] == v[0] && v[0] in v;
          assert (v + rest)[j] == rest[j - 1] && rest[j - 1] in rest;
        } else {
          assert (v + rest)[i] == rest[i - 1] && (v + rest)[j] == rest[j - 1];
        }
      }
    } else {
      assert v + rest == rest;
    }
  }

  /**
   * `optimizeRouteByLocation` loses and invents nothing: its route holds every
   * input place exactly as often as the input does, tagged with its area.
   */
  lemma OptimizedRoutePermutes(key: Place -> Area, ps: seq<Place>, start: Option<Area>)
    requires |ps| > 1
    ensures multiset(Flatten(key, ps, Walk(key, ps, StartArea(key, ps, start), {}))) == multiset(TagAll(key, ps))
  {
    var s := StartArea(key, ps, start);
    WalkCovers(key, ps, s, {});
    FlattenPermutes(key, ps, Walk(key, ps, s, {}));
  }

  /** Flattening the groups of every area once each gives back all the tagged places. */
  lemma FlattenPermutes(key: Place -> Area, ps: seq<Place>, order: seq<Area>)
    requires Distinct(order)
    requires forall a :: a in order <==> a in KeySet(key, ps)
    ensures multiset(Flatten(key, ps, order)) == multiset(TagAll(key, ps))
  {
    forall x
      ensures multiset(Flatten(key, ps, order))[x] == multiset(TagAll(key, ps))[x]
    {
      FlattenCount(key, ps, order, x);
      if x.area.Some? && x.area.value !in order {
        KeysGroup(key, ps, x.area.value);
        GroupCount(key, ps, x.area.value, x);
      }
    }
  }

  // ---------------------------------------------------------------------------
  // Each area is one block, in input order

  /** The places of `t` tagged with area `a`, in order. */
  function AreaFilter(t: seq<Place>, a: Area): (r: seq<Place>)
    ensures |r| <= |t|
  {
    if t == [] then [] else (if t[0].area == Some(a) then [t[0]] else []) + AreaFilter(t[1..], a)
  }

  lemma {:induction false} AreaFilterAppend(x: seq<Place>, y: seq<Place>, a: Area)
    ensures AreaFilter(x + y, a) == AreaFilter(x, a) + AreaFilter(y, a)
    decreases |x|
  {
    if x == [] {
      assert x + y == y;
    } else {
      assert (x + y)[0] == x[0] && (x + y)[1..] == x[1..] + y;
      AreaFilterAppend(x[1..], y, a);
    }
  }

  /** Filtering a list whose places all carry area `b`. */
  lemma {:induction false} AreaFilterUniform(t: seq<Place>, a: Area, b: Area)
    requires forall i :: 0 <= i < |t| ==> t[i].area == Some(b)
    ensures AreaFilter(t, a) == if a == b then t else []
    decreases |t|
  {
    if t != [] {
      AreaFilterUniform(t[1..], a, b);
      assert t == [t[0]] + t[1..];
    }
  }

  /** A group is the tagged input filtered to its area: the input's relative order is kept. */
  lemma {:induction false} GroupIsAreaFilter(key: Place -> Area, ps: seq<Place>, a: Area)
    ensures Group(key, ps, a) == AreaFilter(TagAll(key, ps), a)
    decreases |ps|
  {
    if ps != [] {
      var init, last := ps[..|ps| - 1], ps[|ps| - 1];
      GroupIsAreaFilter(key, init, a);
      assert TagAll(key, ps) == TagAll(key, init) + [Tag(last, key(last))];
      AreaFilterAppend(TagAll(key, init), [Tag(last, key(last))], a);
      assert AreaFilter([Tag(last, key(last))], a) == if key(last) == a then [Tag(last, a)] else [] by {
        assert [Tag(last, key(last))][1..] == [];
      }
    }
  }

  /** Filtering a flattened walk of distinct areas to one area gives that area's group, or nothing. */
  lemma {:induction false} FlattenAreaFilter(key: Place -> Area, ps: seq<Place>, order: seq<Area>, a: Area)
    requires Distinct(order)
    ensures AreaFilter(Flatten(key, ps, order), a) == if a in order then Group(key, ps, a) else []
    decreases |order|
  {
    if order != [] {
      assert Distinct(order[1..]) by {
        forall i, j | 0 <= i < j < |order[1..]|
          ensures order[1..][i] != order[1..][j]
        {
          assert order[1..][i] == order[i + 1] && order[1..][j] == order[j + 1];
        }
      }
      FlattenAreaFilter(key, ps, order[1..], a);
      var g, f := Group(key, ps, order[0]), Flatten(key, ps, order[1..]);
      GroupTagged(key, ps, order[0]);
      assert Flatten(key, ps, order) == g + f;
      AreaFilterAppend(g, f, a);
      AreaFilterUniform(g, a, order[0]);
      var inRest := a in order[1..];
      assert a in order <==> a == order[0] || inRest by {
        assert order == [order[0]] + order[1..];
      }
      if a == order[0] {
        assert !inRest by {
          forall k | 0 <= k < |order[1..]|
            ensures order[1..][k] != order[0]
          {
            assert order[1..][k] == order[k + 1];
          }
        }
        assert AreaFilter(g + f, a) == g + [];
      } else {
        assert AreaFilter(g + f, a) == [] + AreaFilter(f, a);
      }
    }
  }

  /**
   * Seen one area at a time, the optimised route is the input: for every
   * area, its places appear in the route in the order they had in the input.
   */
  lemma OptimizedRouteKeepsAreaOrder(key: Place -> Area, ps: seq<Place>, start: Option<Area>, a: Area)
    requires |ps| > 1
    ensures AreaFilter(Flatten(key, ps, Walk(key, ps, StartArea(key, ps, start), {})), a) == AreaFilter(TagAll(key, ps), a)
  {
    var s := StartArea(key, ps, start);
    WalkCovers(key, ps, s, {});
    FlattenAreaFilter(key, ps, Walk(key, ps, s, {}), a);
    GroupIsAreaFilter(key, ps, a);
    KeysGroup(key, ps, a);
  }

  /** Every place of a flattened walk carries one of the walk's areas. */
  lemma {:induction false} FlattenAreas(key: Place -> Area, ps: seq<Place>, order: seq<Area>)
    ensures forall i :: 0 <= i < |Flatten(key, ps, order)| ==>
      Flatten(key, ps, order)[i].area.Some? && Flatten(key, ps, order)[i].area.value in order
    decreases |order|
  {
    if order != [] {
      FlattenAreas(key, ps, order[1..]);
      var g: seq<Place>, f: seq<Place> := Group(key, ps, order[0]), Flatten(key, ps, order[1..]);
      GroupTagged(key, ps, order[0]);
      forall i | 0 <= i < |g + f|
        ensures (g + f)[i].area.Some? && (g + f)[i].area.value in order
      {
        if i >= |g| {
          assert (g + f)[i] == f[i - |g|];
          var k :| 0 <= k < |order[1..]| && order[1..][k] == f[i - |g|].area.value;
          assert order[k + 1] == order[1..][k];
        }
      }
    }
  }

  /** Places of one area form a single block: between two of them lies no place of another area. */
  predicate Contiguous(f: seq<Place>)
  {
    forall i, j, k :: 0 <= i < j < k < |f| && f[i].area == f[k].area ==> f[j].area == f[i].area
  }

  /** The places of one area form a single block of a flattened walk of distinct areas. */
  lemma {:induction false} FlattenContiguous(key: Place -> Area, ps: seq<Place>, order: seq<Area>)
    requires Distinct(order)
    ensures Contiguous(Flatten(key, ps, order))
    decreases |order|
  {
    if order != [] {
      assert Distinct(order[1..]) by {
        forall i, j | 0 <= i < j < |order[1..]|
          ensures order[1..][i] != order[1..][j]
        {
          assert order[1..][i] == order[i + 1] && order[1..][j] == order[j + 1];
        }
      }
      FlattenContiguous(key, ps, order[1..]);
      FlattenAreas(key, ps, order[1..]);
      var g: seq<Place>, f: seq<Place> := Group(key, ps, order[0]), Flatten(key, ps, order[1..]);
      GroupTagged(key, ps, order[0]);
      assert order[0] !in order[1..] by {
        forall k | 0 <= k < |order[1..]|
          ensures order[1..][k] != order[0]
        {
          assert order[1..][k] == order[k + 1];
        }
      }
      forall i, k | 0 <= i < |g| <= k < |g + f|
        ensures (g + f)[i].area != (g + f)[k].area
      {
        assert (g + f)[i] == g[i] && (g + f)[k] == f[k - |g|];
      }
      forall i, j, k | 0 <= i < j < k < |g + f| && (g + f)[i].area == (g + f)[k].area
        ensures (g + f)[j].area == (g + f)[i].area
      {
        if k < |g| {
          assert (g + f)[i] == g[i] && (g + f)[j] == g[j];
          assert g[i].area == Some(order[0]) && g[j].area == Some(order[0]);
        } else if i >= |g| {
          assert (g + f)[i] == f[i - |g|] && (g + f)[j] == f[j - |g|] && (g + f)[k] == f[k - |g|];
          assert f[i - |g|].area == f[k - |g|].area;
          assert 0 <= i - |g| < j - |g| < k - |g| < |f|;
          assert f[j - |g|].area == f[i - |g|].area;
        }
      }
    }
  }

  /** In the optimised route, the places of each area form one contiguous block. */
  lemma OptimizedRouteContiguous(key: Place -> Area, ps: seq<Place>, start: Option<Area>)
    requires |ps| > 1
    ensures Contiguous(Flatten(key, ps, Walk(key, ps, StartArea(key, ps, start), {})))
  {
    var s := StartArea(key, ps, start);
    WalkCovers(key, ps, s, {});
    FlattenContiguous(key, ps, Walk(key, ps, s, {}));
  }
}
