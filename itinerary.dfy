/**
 * Itinerary items and the passes `generateRundown` makes over the finished
 * list: the fixed fallback day, the free-time item that makes a short day
 * two items long, the transport notes, and the sort by time.
 */
module Itinerary {
  import opened JsValues
  import opened Lists
  import opened Geography
  import opened Clock

  /**
   * One line of the rundown. The `time` text the source stores is
   * `FormatTime(hour, minute)`, which reads back as the same pair
   * (Clock.ParseFormatTime); `placeId` is set on dinner items only.
   */
  datatype Item = Item(
    hour: nat,
    minute: nat,
    activity: string,
    duration: string,
    notes: string,
    price: Value,
    location: Value,
    area: Area,
    placeId: Option<string>)

  /** The item's `time` text. */
  function TimeText(it: Item): string
  {
    FormatTime(it.hour, it.minute)
  }

  /** The sort key `aTime[0] * 60 + aTime[1]`, where `aTime` is the time text read back. */
  function TimeKey(it: Item): nat
  {
    MinuteOfDay(it.hour, it.minute)
  }

  /** The key the sort computes from the `time` text is the item's minute of the day. */
  lemma TimeTextKey(it: Item)
    ensures ParseClock(TimeText(it)).Some?
    ensures var (h, m) := ParseClock(TimeText(it)).value; h * 60 + m == TimeKey(it)
  {
    ParseFormatTime(it.hour, it.minute);
  }

  // ---------------------------------------------------------------------------
  // Texts shared by the stages

  /** `${n} menit`. */
  function MinutesText(n: nat): string
  {
    NatToString(n) + " menit"
  }

  /** `${Math.floor(d / 60)} jam ${d % 60 > 0 ? (d % 60) + ' menit' : ''}`. */
  function HoursText(d: nat): string
  {
    NatToString(d / 60) + " jam " + (if d % 60 > 0 then NatToString(d % 60) + " menit" else "")
  }

  /** The ` (${t} menit perjalanan)` suffix, empty when there was no travel. */
  function TravelText(t: nat): string
  {
    if t > 0 then " (" + NatToString(t) + " menit perjalanan)" else ""
  }

  /** The snack and free-time titles, with the pictographs as the source file holds them (see `Places.Pin`). */
  const SnackActivity: string := "\U{201A}\U{F2}\U{EF} Istirahat Jajan"
  const FreeTimeActivity: string := "\U{F8FF}\U{FC}\U{F5}\U{E7}\U{D4}\U{220F}\U{E8} Waktu Bebas untuk Belanja atau Bersantai"

  // ---------------------------------------------------------------------------
  // The fallback day and the short-day item

  /** The four fixed items used when the scheduler produced nothing. */
  function FallbackDay(startH: nat, startM: nat): (r: seq<Item>)
    ensures |r| == 4
  {
    var lunchHour := if startH + 3 < 13 then startH + 3 else 13;
    [ Item(startH, startM, "\U{F8FF}\U{FC}\U{E8}\U{F5}\U{D4}\U{220F}\U{E8} Kunjungan ke Museum Nasional", "2 jam",
           "Mulai hari dengan menjelajahi museum di Jakarta Pusat", VStr("Rp 20.000 - 50.000"),
           VStr("Jakarta Pusat"), Pusat, None),
      Item(lunchHour, 0, "\U{F8FF}\U{FC}\U{E7}\U{FA} Istirahat Makan", "1 jam",
           "Istirahat  Makan dan mencicipi kuliner lokal di Jakarta Pusat", VStr("Rp 25.000 - 50.000"),
           VStr("Jakarta Pusat"), Pusat, None),
      Item(lunchHour + 1, 30, "\U{F8FF}\U{FC}\U{F5}\U{E7}\U{D4}\U{220F}\U{E8} Belanja di Mal atau Pasar Tradisional", "2 jam",
           "Jelajahi pusat perbelanjaan atau pasar tradisional di Jakarta Pusat", VStr("Varies"),
           VStr("Jakarta Pusat"), Pusat, None),
      Item(18, 30, "\U{F8FF}\U{FC}\U{E7}\U{3A9}\U{D4}\U{220F}\U{E8} Makan Malam", "1 jam 30 menit",
           "Nikmati makan malam untuk mengakhiri trip di Jakarta Pusat", VStr("Rp 35.000 - 75.000"),
           VStr("Jakarta Pusat"), Pusat, None) ]
  }

  /** `if (itinerary.length === 0)`: an empty day becomes the fallback day, any other is kept. */
  function WithFallback(items: seq<Item>, startH: nat, startM: nat): (r: seq<Item>)
    ensures |r| >= 1
    ensures items != [] ==> r == items
    ensures items == [] ==> |r| == 4 && r[0].hour == startH && r[0].minute == startM
  {
    if items == [] then FallbackDay(startH, startM) else items
  }

  /**
   * `if (itinerary.length < 2)`: a one-item day gets free time an hour and a
   * half after the last item, in the last item's place.
   */
  function WithSecondItem(items: seq<Item>): (r: seq<Item>)
    requires |items| >= 1
    ensures |r| >= 2
    ensures |items| >= 2 ==> r == items
    ensures |items| == 1 ==> |r| == 2 && r[0] == items[0] && r[1].activity == FreeTimeActivity
                             && r[1].area == items[0].area
                             && Truthy(r[1].location)
                             && (r[1].hour, r[1].minute) == AddTime(items[0].hour, items[0].minute, 1, 30)
  {
    if |items| >= 2 then items
    else
      var last := items[|items| - 1];
      var (h, m) := AddTime(last.hour, last.minute, 1, 30);
      items + [Item(h, m, FreeTimeActivity, "2 jam", "Luangkan waktu untuk belanja oleh-oleh atau bersantai",
                    VStr("Varies"), Or(last.location, VStr("Jakarta Pusat")), last.area, None)]
  }

  // ---------------------------------------------------------------------------
  // Transport notes

  /** The note for the transport answer. */
  function TransportNote(transport: string): string
  {
    if transport == "private" then "Gunakan kendaraan pribadi"
    else if transport == "public" then "Perjalanan dengan transportasi umum"
    else if transport == "ride-sharing" then "Pesan Gojek/Grab untuk perjalanan antar lokasi"
    else "Perjalanan antar lokasi"
  }

  /** Does item `i` lead to a different area and carry no travel hint yet? */
  predicate NeedsNote(items: seq<Item>, i: nat)
    requires i < |items|
  {
    i < |items| - 1 && items[i].area != items[i + 1].area
    && !Contains(items[i].notes, "transport") && !Contains(items[i].notes, "Grab")
  }

  /** Item `i` after the transport-note pass. */
  function Noted(items: seq<Item>, i: nat, note: string): (r: Item)
    requires i < |items|
    ensures r == items[i].(notes := r.notes)
    ensures r.notes == if NeedsNote(items, i) then items[i].notes + ". " + note + " ke " + AreaName(items[i + 1].area) + "."
                       else items[i].notes
  {
    if NeedsNote(items, i) then
      items[i].(notes := items[i].notes + ". " + note + " ke " + AreaName(items[i + 1].area) + ".")
    else items[i]
  }

  /**
   * The transport-note pass, made when a transport answer was given:
   * every item that leads to another area and mentions no travel yet gets
   * the note and the next area appended; nothing else changes.
   */
  function WithTransportNotes(items: seq<Item>, transport: string): (r: seq<Item>)
    ensures |r| == |items|
    ensures forall i :: 0 <= i < |items| ==> r[i] == items[i].(notes := r[i].notes)
    ensures forall i :: 0 <= i < |items| ==>
              r[i].notes == if transport != "" && NeedsNote(items, i)
                            then items[i].notes + ". " + TransportNote(transport) + " ke " + AreaName(items[i + 1].area) + "."
                            else items[i].notes
  {
    if transport == "" then items
    else seq(|items|, i requires 0 <= i < |items| => Noted(items, i, TransportNote(transport)))
  }

  /** The last item never gets a note, and a pass over a one-area day changes nothing. */
  lemma TransportNotesLocal(items: seq<Item>, transport: string)
    ensures items != [] ==> WithTransportNotes(items, transport)[|items| - 1] == items[|items| - 1]
    ensures (forall i :: 0 <= i < |items| ==> items[i].area == Pusat) ==> WithTransportNotes(items, transport) == items
  {
  }

  // ---------------------------------------------------------------------------
  // The sort by time

  /** Insert an item before the first item that is not earlier than it. */
  function InsertByTime(x: Item, s: seq<Item>): (r: seq<Item>)
    ensures |r| == |s| + 1
  {
    if s == [] then [x]
    else if TimeKey(x) <= TimeKey(s[0]) then [x] + s
    else [s[0]] + InsertByTime(x, s[1..])
  }

  /** `itinerary.sort(by minutes of the day)`: a stable sort. */
  function SortByTime(s: seq<Item>): (r: seq<Item>)
    ensures |r| == |s|
  {
    if s == [] then [] else InsertByTime(s[0], SortByTime(s[1..]))
  }

  predicate SortedByTime(s: seq<Item>)
  {
    forall i, j :: 0 <= i < j < |s| ==> TimeKey(s[i]) <= TimeKey(s[j])
  }

  lemma {:induction false} InsertCount(x: Item, s: seq<Item>)
    ensures multiset(InsertByTime(x, s)) == multiset{x} + multiset(s)
    decreases |s|
  {
    if s != [] && TimeKey(x) > TimeKey(s[0]) {
      InsertCount(x, s[1..]);
      assert s == [s[0]] + s[1..];
    }
  }

  lemma {:induction false} InsertSorted(x: Item, s: seq<Item>)
    requires SortedByTime(s)
    ensures SortedByTime(InsertByTime(x, s))
    decreases |s|
  {
    if s != [] && TimeKey(x) > TimeKey(s[0]) {
      InsertSorted(x, s[1..]);
      InsertCount(x, s[1..]);
      var t := InsertByTime(x, s[1..]);
      var r := [s[0]] + t;
      forall k | 0 <= k < |t|
        ensures TimeKey(s[0]) <= TimeKey(t[k])
      {
        assert t[k] in multiset(t);
        if t[k] != x {
          assert t[k] in multiset(s[1..]);
          var m :| 0 <= m < |s[1..]| && s[1..][m] == t[k];
          assert s[m + 1] == t[k];
        }
      }
      forall i, j | 0 <= i < j < |r|
        ensures TimeKey(r[i]) <= TimeKey(r[j])
      {
        assert r[j] == t[j - 1];
        if i > 0 {
          assert r[i] == t[i - 1];
        }
      }
    }
  }

  /** The sorted day is ordered by time and holds exactly the items of the day. */
  lemma {:induction false} SortByTimeSorts(s: seq<Item>)
    ensures SortedByTime(SortByTime(s))
    ensures multiset(SortByTime(s)) == multiset(s)
    decreases |s|
  {
    if s != [] {
      SortByTimeSorts(s[1..]);
      InsertSorted(s[0], SortByTime(s[1..]));
      InsertCount(s[0], SortByTime(s[1..]));
      assert s == [s[0]] + s[1..];
    }
  }

  function AtMinute(k: nat): Item -> bool
  {
    (it: Item) => TimeKey(it) == k
  }

  lemma {:induction false} InsertKeepsTies(x: Item, s: seq<Item>, k: nat)
    ensures Filter(InsertByTime(x, s), AtMinute(k)) == (if TimeKey(x) == k then [x] else []) + Filter(s, AtMinute(k))
    decreases |s|
  {
    var f := AtMinute(k);
    if s != [] && TimeKey(x) > TimeKey(s[0]) {
      InsertKeepsTies(x, s[1..], k);
      FilterAppend([s[0]], InsertByTime(x, s[1..]), f);
      FilterAppend([s[0]], s[1..], f);
      assert [s[0]] + s[1..] == s;
    } else {
      FilterAppend([x], s, f);
    }
  }

  /** The sort is stable: items at the same minute keep their order. */
  lemma {:induction false} SortByTimeStable(s: seq<Item>, k: nat)
    ensures Filter(SortByTime(s), AtMinute(k)) == Filter(s, AtMinute(k))
    decreases |s|
  {
    if s != [] {
      SortByTimeStable(s[1..], k);
      InsertKeepsTies(s[0], SortByTime(s[1..]), k);
    }
  }
}
