/**
 * The scheduler's pace: the per-style durations, and the travel time
 * between two stops from the distance of their areas and the transport.
 */
module Transit {
  import opened JsValues
  import opened Geography
  import opened Places

  /**
   * Durations in minutes for a travel style: an activity, the basic
   * transit between stops, a meal; and how many activities a morning or an
   * afternoon block may hold.
   */
  datatype Pace = Pace(activity: nat, transit: nat, meal: nat, blockCap: nat)

  /** The style table: relaxed, intensive, and balanced for any other answer. */
  function PaceOf(style: string, transport: string): (p: Pace)
    ensures p.transit == (if style == "relaxed" then 35 else if style == "intensive" then 15 else 25)
                         + (if transport == "private" then 0 else 10)
    ensures style == "relaxed" ==> p.activity == 120 && p.meal == 90 && p.blockCap == 1
    ensures style == "intensive" ==> p.activity == 60 && p.meal == 45 && p.blockCap == 3
    ensures style != "relaxed" && style != "intensive" ==> p.activity == 90 && p.meal == 60 && p.blockCap == 2
  {
    var pvt := transport == "private";
    if style == "relaxed" then Pace(120, if pvt then 35 else 45, 90, 1)
    else if style == "intensive" then Pace(60, if pvt then 15 else 25, 45, 3)
    else Pace(90, if pvt then 25 else 35, 60, 2)
  }

  /** A more relaxed style never plans shorter visits, transits or meals, and never more activities per block. */
  lemma PaceOrder(transport: string, other: string)
    requires other != "relaxed" && other != "intensive"
    ensures var r, b, i := PaceOf("relaxed", transport), PaceOf(other, transport), PaceOf("intensive", transport);
            && i.activity < b.activity < r.activity
            && i.transit < b.transit < r.transit
            && i.meal < b.meal < r.meal
            && r.blockCap < b.blockCap < i.blockCap
  {
  }

  /** The area a stop is in: its `area` field, else the area of its location. */
  function AreaOf(p: Place): Area
  {
    if p.area.Some? then p.area.value else AreaFromLocation(p.location)
  }

  /** Extra minutes for the distance between two areas. */
  function Extra(d: nat): (x: nat)
    ensures x == 10 * (if d < 3 then d else 3)
  {
    if d == 0 then 0 else if d == 1 then 10 else if d == 2 then 20 else 30
  }

  /**
   * `Math.round(x * multiplier)`: private transport and unknown answers
   * 1, public transport 1.5, ride-sharing 1.2, on whole minutes.
   */
  function Scaled(transport: string, x: nat): (r: nat)
  {
    if transport == "public" then (3 * x + 1) / 2
    else if transport == "ride-sharing" then (12 * x + 5) / 10
    else x
  }

  /**
   * The scaled value is the product rounded to the nearest minute, halves
   * rounded up (`Math.round`): `r - 1/2 <= x * multiplier < r + 1/2`.
   */
  lemma ScaledRounds(transport: string, x: nat)
    ensures var r := Scaled(transport, x);
            if transport == "public" then 2 * r <= 3 * x + 1 < 2 * r + 2
            else if transport == "ride-sharing" then 10 * r <= 12 * x + 5 < 10 * r + 10
            else r == x
  {
  }

  /** Rounding ride-sharing times never meets a tie: 12·x is never 5 more than a multiple of 10. */
  lemma RideSharingNoTie(x: nat)
    ensures (12 * x) % 10 != 5
  {
    assert (12 * x) % 2 == 0;
  }

  /**
   * `getTransportTimeForDestinations`: the base time when either stop is
   * missing, otherwise the base plus the distance extra, scaled by the
   * transport's multiplier.
   */
  function TransitTime(pace: Pace, transport: string, cur: Option<Place>, next: Option<Place>): (t: nat)
    ensures cur.None? || next.None? ==> t == pace.transit
  {
    if cur.None? || next.None? then pace.transit
    else
      var d := AreaDistance(Some(AreaOf(cur.value)), Some(AreaOf(next.value)));
      Scaled(transport, pace.transit + Extra(d))
  }

  /**
   * Travel time lies between the base and the scaled base plus half an hour;
   * within one area it is the scaled base; and no stop is reached faster than
   * the base time.
   */
  lemma TransitBounds(pace: Pace, transport: string, cur: Option<Place>, next: Option<Place>)
    ensures var t := TransitTime(pace, transport, cur, next);
            pace.transit <= t <= Scaled(transport, pace.transit + 30)
    ensures cur.Some? && next.Some? && AreaOf(cur.value) == AreaOf(next.value) ==>
              TransitTime(pace, transport, cur, next) == Scaled(transport, pace.transit)
  {
    if cur.Some? && next.Some? {
      var d := AreaDistance(Some(AreaOf(cur.value)), Some(AreaOf(next.value)));
      ScaledMonotone(transport, pace.transit, pace.transit + Extra(d));
      ScaledMonotone(transport, pace.transit + Extra(d), pace.transit + 30);
    }
    ScaledMonotone(transport, pace.transit, pace.transit + 30);
  }

  /** Scaling keeps the order of times and never shortens one. */
  lemma ScaledMonotone(transport: string, x: nat, y: nat)
    requires x <= y
    ensures x <= Scaled(transport, x) <= Scaled(transport, y)
  {
  }

  /** A stop in a farther area never takes less travel time. */
  lemma TransitMonotone(pace: Pace, transport: string, cur: Place, a: Place, b: Place)
    requires AreaDistance(Some(AreaOf(cur)), Some(AreaOf(a))) <= AreaDistance(Some(AreaOf(cur)), Some(AreaOf(b)))
    ensures TransitTime(pace, transport, Some(cur), Some(a)) <= TransitTime(pace, transport, Some(cur), Some(b))
  {
    var da := AreaDistance(Some(AreaOf(cur)), Some(AreaOf(a)));
    var db := AreaDistance(Some(AreaOf(cur)), Some(AreaOf(b)));
    ScaledMonotone(transport, pace.transit + Extra(da), pace.transit + Extra(db));
  }

  /** Travel time is the same in both directions. */
  lemma TransitSymmetric(pace: Pace, transport: string, a: Place, b: Place)
    ensures TransitTime(pace, transport, Some(a), Some(b)) == TransitTime(pace, transport, Some(b), Some(a))
  {
    AreaDistanceSymmetric(Some(AreaOf(a)), Some(AreaOf(b)));
  }
}
