/**
 * The scheduler's clock: an hour and a minute that `addTime` advances,
 * the `HH:MM` texts the itinerary shows and reads back, and the trip's end.
 */
module Clock {
  import opened JsValues

  /** The clock reading as minutes after midnight (`currentTimeMinutes`). */
  function MinuteOfDay(h: nat, m: nat): nat
  {
    h * 60 + m
  }

  /**
   * `addTime(h, m, addHours, addMinutes)`: the minutes carry into the hours
   * and the hour is brought back by 24 once, so the reading can fall behind
   * the start after midnight.
   */
  function AddTime(h: nat, m: nat, addH: nat, addM: nat): (r: (nat, nat))
    ensures m < 60 ==> r.1 < 60
    ensures h + (m + addM) / 60 + addH < 24 ==>
              MinuteOfDay(r.0, r.1) == MinuteOfDay(h, m) + addH * 60 + addM
    ensures h + (m + addM) / 60 + addH >= 24 ==>
              MinuteOfDay(r.0, r.1) + 1440 == MinuteOfDay(h, m) + addH * 60 + addM
  {
    var total := m + addM;
    var h1 := if total >= 60 then h + total / 60 else h;
    var m1 := if total >= 60 then total % 60 else total;
    var h2 := h1 + addH;
    (if h2 >= 24 then h2 - 24 else h2, m1)
  }

  /** Starting on the dial and adding at most a day keeps the hour on the dial. */
  lemma AddTimeOnDial(h: nat, m: nat, addH: nat, addM: nat)
    requires h < 24 && m < 60 && addH * 60 + addM <= 1440
    ensures AddTime(h, m, addH, addM).0 < 24 && AddTime(h, m, addH, addM).1 < 60
  {
    var q := (m + addM) / 60;
    assert q * 60 <= m + addM;
    assert q * 60 < 60 + 1440 - addH * 60;
    assert q < 25 - addH;
  }

  /** Half an hour after 23:45 the clock reads 00:15: the reading goes backwards past midnight. */
  lemma AddTimePastMidnight()
    ensures AddTime(23, 45, 0, 30) == (0, 15)
    ensures MinuteOfDay(0, 15) < MinuteOfDay(23, 45)
  {
  }

  /** An addition of less than a day that stays before midnight moves the clock forward by exactly that much. */
  lemma AddTimeForward(h: nat, m: nat, add: nat)
    requires MinuteOfDay(h, m) + add < 1440 && m < 60
    ensures MinuteOfDay(AddTime(h, m, 0, add).0, AddTime(h, m, 0, add).1) == MinuteOfDay(h, m) + add
  {
    assert h * 60 + (m + add) < 1440;
    assert (m + add) / 60 * 60 <= m + add;
    assert h + (m + add) / 60 < 24;
  }

  /** `n.toString().padStart(2, '0')`. */
  function Pad2(n: nat): (s: string)
    ensures AllDigits(s) && s != []
  {
    if n < 10 then "0" + NatToString(n) else NatToString(n)
  }

  /** `formatTime(h, m)`. */
  function FormatTime(h: nat, m: nat): (s: string)
  {
    Pad2(h) + ":" + Pad2(m)
  }

  /** A time with one- or two-digit fields is written as `HH:MM`. */
  lemma FormatTimeShape(h: nat, m: nat)
    requires h < 100 && m < 100
    ensures var s := FormatTime(h, m);
            |s| == 5 && s[2] == ':' && AllDigits(s[..2]) && AllDigits(s[3..])
  {
    assert |Pad2(h)| == 2 by {
      if h >= 10 {
        assert NatToString(h) == NatToString(h / 10) + [DigitChar(h % 10)];
      }
    }
    assert |Pad2(m)| == 2 by {
      if m >= 10 {
        assert NatToString(m) == NatToString(m / 10) + [DigitChar(m % 10)];
      }
    }
    var s := FormatTime(h, m);
    assert s[..2] == Pad2(h) && s[3..] == Pad2(m);
  }

  /**
   * `time.split(':').map(Number)` read as an hour and a minute. `None` is
   * a text without two decimal fields, which the model does not follow.
   */
  function ParseClock(s: string): (r: Option<(nat, nat)>)
  {
    var parts := Split(s, ':');
    if |parts| >= 2 && parts[0] != [] && parts[1] != [] && AllDigits(parts[0]) && AllDigits(parts[1]) then
      Some((DigitsValue(parts[0]), DigitsValue(parts[1])))
    else None
  }

  lemma {:induction false} IndexOfAfter(a: string, c: char, b: string)
    requires c !in a
    ensures c in a + [c] + b && IndexOf(a + [c] + b, c) == |a|
    decreases |a|
  {
    if a != [] {
      assert (a + [c] + b)[1..] == a[1..] + [c] + b;
      IndexOfAfter(a[1..], c, b);
    }
  }

  lemma Pad2Value(n: nat)
    ensures DigitsValue(Pad2(n)) == n
  {
    NatToStringValue(n);
    if n < 10 {
      var s := Pad2(n);
      assert s[..|s| - 1] == "0";
    }
  }

  /** Reading back a formatted time gives the hour and the minute that were formatted. */
  lemma ParseFormatTime(h: nat, m: nat)
    ensures ParseClock(FormatTime(h, m)) == Some((h, m))
  {
    var a, b := Pad2(h), Pad2(m);
    assert ':' !in a && ':' !in b;
    IndexOfAfter(a, ':', b);
    var s := FormatTime(h, m);
    assert s == a + [':'] + b;
    assert s[..|a|] == a && s[|a| + 1..] == b;
    assert Split(b, ':') == [b];
    assert Split(s, ':') == [a, b];
    Pad2Value(h);
    Pad2Value(m);
  }

  /** `preferences.startTime || '09:00'` read as an hour and a minute. */
  function StartClock(startTime: string): Option<(nat, nat)>
  {
    ParseClock(if startTime == "" then "09:00" else startTime)
  }

  /** An empty start-time answer starts the day at nine. */
  lemma StartClockDefault()
    ensures StartClock("") == Some((9, 0))
  {
    ParseFormatTime(9, 0);
    assert FormatTime(9, 0) == "09:00";
  }

  /** The length of the trip in hours: half a day 5, a weekend 20, anything else 10. */
  function TripHours(duration: string): (n: nat)
    ensures n == 5 || n == 10 || n == 20
    ensures n == 5 <==> duration == "half-day"
    ensures n == 20 <==> duration == "weekend"
  {
    if duration == "half-day" then 5 else if duration == "weekend" then 20 else 10
  }

  /** The end reading: the start plus the trip length, brought back by 24 hours once. */
  function EndClock(startH: nat, startM: nat, duration: string): (r: (nat, nat))
    ensures r.1 == startM
    ensures startH < 24 ==> r.0 < 24 && (r.0 == startH + TripHours(duration) || r.0 + 24 == startH + TripHours(duration))
  {
    var e := startH + TripHours(duration);
    (if e >= 24 then e - 24 else e, startM)
  }

  /** `endTimeMinutes`: the end reading, a day later when it falls before the start hour. */
  function EndTimeMinutes(startH: nat, startM: nat, duration: string): nat
  {
    var (eh, em) := EndClock(startH, startM, duration);
    MinuteOfDay(if eh < startH then eh + 24 else eh, em)
  }

  /** For a start hour on the dial, the end lies exactly the trip length after the start. */
  lemma EndTimeIsStartPlusLength(startH: nat, startM: nat, duration: string)
    requires startH < 24
    ensures EndTimeMinutes(startH, startM, duration) == MinuteOfDay(startH, startM) + 60 * TripHours(duration)
  {
  }
}
