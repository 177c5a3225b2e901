/**
 * Jakarta's five administrative areas as the itinerary engine knows them:
 * the keyword table that places a free-text location in an area, and the
 * fixed table of distances between areas.
 */
module Geography {
  import opened JsValues

  datatype Area = Pusat | Utara | Barat | Selatan | Timur | Unknown

  /** The key under which the engine stores the area. */
  function AreaName(a: Area): string
  {
    match a
    case Pusat => "Jakarta Pusat"
    case Utara => "Jakarta Utara"
    case Barat => "Jakarta Barat"
    case Selatan => "Jakarta Selatan"
    case Timur => "Jakarta Timur"
    case Unknown => "UNKNOWN"
  }

  /** One row of the keyword table. */
  datatype Entry = Entry(area: Area, keywords: seq<string>)

  /** `JAKARTA_AREAS`, in its key order. */
  const Table: seq<Entry> := [
    Entry(Pusat, ["Jakarta Pusat", "Pusat", "Central Jakarta", "Menteng", "Gambir", "Tanah Abang",
                  "Kemayoran", "Sawah Besar", "Cempaka Putih"]),
    Entry(Utara, ["Jakarta Utara", "Utara", "North Jakarta", "Ancol", "Kelapa Gading", "Sunter",
                  "Tanjung Priok", "Penjaringan", "Pademangan"]),
    Entry(Barat, ["Jakarta Barat", "Barat", "West Jakarta", "Grogol", "Cengkareng", "Kalideres",
                  "Kebon Jeruk", "Kembangan", "Palmerah", "Taman Sari", "Tambora"]),
    Entry(Selatan, ["Jakarta Selatan", "Selatan", "South Jakarta", "Kebayoran", "Cilandak", "Jagakarsa",
                    "Mampang", "Pancoran", "Pasar Minggu", "Pesanggrahan", "Setiabudi", "Tebet"]),
    Entry(Timur, ["Jakarta Timur", "Timur", "East Jakarta", "Cakung", "Cipayung", "Ciracas",
                  "Duren Sawit", "Jatinegara", "Kramat Jati", "Makasar", "Matraman", "Pasar Rebo",
                  "Pulogadung"])
  ]

  /** Some keyword of the row, lower-cased, occurs in the lower-cased location. */
  predicate Mentions(lower: string, e: Entry)
  {
    exists k :: 0 <= k < |e.keywords| && Contains(lower, ToLower(e.keywords[k]))
  }

  /** The inner `for (const keyword of keywords)` loop: does any keyword occur? */
  function KeywordHit(lower: string, kws: seq<string>): (hit: bool)
  {
    kws != [] && (Contains(lower, ToLower(kws[0])) || KeywordHit(lower, kws[1..]))
  }

  /** The outer loop: the area of the first row with a keyword hit. */
  function FirstMentioned(lower: string, rows: seq<Entry>): (a: Area)
  {
    if rows == [] then Unknown
    else if KeywordHit(lower, rows[0].keywords) then rows[0].area
    else FirstMentioned(lower, rows[1..])
  }

  /** `getAreaFromLocation`: a missing, empty or non-string location is unknown. */
  function AreaFromLocation(location: Value): (a: Area)
    ensures a != Unknown ==> location.VStr? && location.s != ""
  {
    if location.VStr? && location.s != "" then FirstMentioned(ToLower(location.s), Table) else Unknown
  }

  lemma {:induction false} KeywordHitMeans(lower: string, kws: seq<string>)
    ensures KeywordHit(lower, kws) <==> exists k :: 0 <= k < |kws| && Contains(lower, ToLower(kws[k]))
  {
    if kws != [] {
      KeywordHitMeans(lower, kws[1..]);
      if KeywordHit(lower, kws[1..]) {
        var k :| 0 <= k < |kws[1..]| && Contains(lower, ToLower(kws[1..][k]));
        assert kws[k + 1] == kws[1..][k];
      }
      if k :| 0 <= k < |kws| && Contains(lower, ToLower(kws[k])) {
        if k > 0 {
          assert kws[1..][k - 1] == kws[k];
        }
      }
    }
  }

  /** The scan over the rows, stated without the scan: none mentioned gives unknown, else the first mentioned row. */
  lemma {:induction false} FirstMentionedIsFirst(lower: string, rows: seq<Entry>)
    requires forall j :: 0 <= j < |rows| ==> rows[j].area != Unknown
    ensures var a := FirstMentioned(lower, rows);
      (a == Unknown <==> forall j :: 0 <= j < |rows| ==> !Mentions(lower, rows[j]))
      && (a != Unknown ==> exists j :: 0 <= j < |rows| && rows[j].area == a && Mentions(lower, rows[j])
                                      && forall i :: 0 <= i < j ==> !Mentions(lower, rows[i]))
  {
    if rows != [] {
      KeywordHitMeans(lower, rows[0].keywords);
      FirstMentionedIsFirst(lower, rows[1..]);
      assert forall j :: 1 <= j < |rows| ==> rows[j] == rows[1..][j - 1];
      if !Mentions(lower, rows[0]) {
        var a := FirstMentioned(lower, rows);
        assert a == FirstMentioned(lower, rows[1..]);
        if a != Unknown {
          var j :| 0 <= j < |rows[1..]| && rows[1..][j].area == a && Mentions(lower, rows[1..][j])
                   && forall i :: 0 <= i < j ==> !Mentions(lower, rows[1..][i]);
          assert rows[j + 1].area == a && Mentions(lower, rows[j + 1]);
        }
      }
    }
  }

  /**
   * The area of a location: unknown for a missing or non-string input;
   * otherwise the area of the first row, in table order, one of whose
   * keywords occurs in the location ignoring case, and unknown when no
   * keyword occurs.
   */
  lemma AreaFromLocationFirstMatch(location: Value)
    ensures !(location.VStr? && location.s != "") ==> AreaFromLocation(location) == Unknown
    ensures location.VStr? && location.s != "" ==>
      var lower, a := ToLower(location.s), AreaFromLocation(location);
      (a == Unknown <==> forall j :: 0 <= j < |Table| ==> !Mentions(lower, Table[j]))
      && (a != Unknown ==> exists j :: 0 <= j < |Table| && Table[j].area == a && Mentions(lower, Table[j])
                                      && forall i :: 0 <= i < j ==> !Mentions(lower, Table[i]))
  {
    if location.VStr? && location.s != "" {
      FirstMentionedIsFirst(ToLower(location.s), Table);
    }
  }

  // ---------------------------------------------------------------------------
  // Distances

  /** The distance matrix between two listed areas. */
  function MatrixDistance(a: Area, b: Area): (d: nat)
  {
    match (a, b)
    case (Pusat, Pusat) => 0    case (Pusat, Utara) => 1    case (Pusat, Barat) => 2
    case (Pusat, Selatan) => 2  case (Pusat, Timur) => 2    case (Pusat, Unknown) => 1
    case (Utara, Pusat) => 1    case (Utara, Utara) => 0    case (Utara, Barat) => 2
    case (Utara, Selatan) => 3  case (Utara, Timur) => 2    case (Utara, Unknown) => 1
    case (Barat, Pusat) => 2    case (Barat, Utara) => 2    case (Barat, Barat) => 0
    case (Barat, Selatan) => 2  case (Barat, Timur) => 4    case (Barat, Unknown) => 2
    case (Selatan, Pusat) => 2  case (Selatan, Utara) => 3  case (Selatan, Barat) => 2
    case (Selatan, Selatan) => 0 case (Selatan, Timur) => 2 case (Selatan, Unknown) => 2
    case (Timur, Pusat) => 2    case (Timur, Utara) => 2    case (Timur, Barat) => 4
    case (Timur, Selatan) => 2  case (Timur, Timur) => 0    case (Timur, Unknown) => 2
    case (Unknown, Pusat) => 1  case (Unknown, Utara) => 1  case (Unknown, Barat) => 2
    case (Unknown, Selatan) => 2 case (Unknown, Timur) => 2 case (Unknown, Unknown) => 0
  }

  /**
   * `getAreaDistance` on two area fields, either of which may be missing
   * (`undefined`): equal names are 0 apart, a pair outside the matrix is 3.
   */
  function AreaDistance(a: Option<Area>, b: Option<Area>): (d: nat)
    ensures d == 0 <==> a == b
    ensures a.Some? && b.Some? ==> d <= 4
    ensures (a.None? || b.None?) && a != b ==> d == 3
  {
    if a == b then 0
    else if a.Some? && b.Some? then MatrixDistance(a.value, b.value)
    else 3
  }

  /** The distance table is symmetric. */
  lemma AreaDistanceSymmetric(a: Option<Area>, b: Option<Area>)
    ensures AreaDistance(a, b) == AreaDistance(b, a)
  {
  }
}
