/**
 * The records the itinerary engine works on: catalog destinations as the
 * store holds them, entries of the user's trip list, and the normalised
 * candidate places built from both.
 */
module Places {
  import opened JsValues
  import opened Geography

  /** A destination record of the catalog (`allDestinations`). */
  datatype Catalog = Catalog(
    id: string,
    name: Option<string>,
    price: Value,
    category: Value,
    indoorOutdoor: Value,
    location: Value,
    description: Value)

  /**
   * An entry of the trip list the user built (`selectedDestinations`).
   * `original` is the catalog record the trip popup attached to the entry,
   * when it found one.
   */
  datatype Selected = Selected(
    id: string,
    labelText: Option<string>,
    name: Option<string>,
    price: Value,
    category: Value,
    location: Value,
    indoorOutdoor: Value,
    original: Option<Catalog>)

  /**
   * A candidate place of the engine. `original` is the catalog record a
   * padded or injected place came from; `area` is set by the route optimiser.
   */
  datatype Place = Place(
    id: string,
    labelText: string,
    price: Value,
    category: Value,
    indoorOutdoor: Value,
    location: Value,
    original: Option<Catalog>,
    area: Option<Area>)

  /**
   * The `TypeError`s the engine can raise, by the `.toLowerCase()` called on
   * a non-string: a setting in the environment filter, a description in the
   * priority sort, a category in `getCategoryEmoji`.
   */
  datatype Fault = EnvironmentFault | DescriptionFault | CategoryFault

  /** A value, or the exception raised while computing it. */
  datatype Result<T> = Ok(value: T) | Throws(fault: Fault)

  /** A trip-list entry as a candidate: label, category and price receive their defaults. */
  function FromSelected(d: Selected): (p: Place)
    ensures p.id == d.id && p.labelText != "" && Truthy(p.category) && Truthy(p.price)
    ensures Present(d.labelText) ==> p.labelText == d.labelText.value
    ensures Truthy(d.category) ==> p.category == d.category
    ensures Truthy(d.price) ==> p.price == d.price
    ensures p.location == d.location && p.indoorOutdoor == d.indoorOutdoor && p.original == d.original && p.area.None?
  {
    Place(d.id, OrElse(OrOpt(d.labelText, d.name), "Unnamed Destination"), Or(d.price, VStr("Harga tidak tersedia")),
          Or(d.category, VStr("Lainnya")), d.indoorOutdoor, d.location, d.original, None)
  }

  /** `dest.location || dest.original?.location`: where a trip entry is, as the start area reads it. */
  function EntryLocation(d: Selected): (v: Value)
    ensures Truthy(d.location) ==> v == d.location
    ensures !Truthy(d.location) && d.original.Some? ==> v == d.original.value.location
    ensures !Truthy(d.location) && d.original.None? ==> v == VNone
  {
    Or(d.location, if d.original.Some? then d.original.value.location else VNone)
  }

  /** `Rp ${price}` for a truthy catalog price, `'Free'` otherwise. */
  function CatalogPrice(v: Value): (r: Value)
    ensures r.VStr?
    ensures Truthy(v) ==> r.s == "Rp " + ValueString(v)
    ensures !Truthy(v) ==> r.s == "Free"
  {
    if Truthy(v) then VStr("Rp " + ValueString(v)) else VStr("Free")
  }

  /** A catalog record as a padding candidate. */
  function FromCatalog(c: Catalog): (p: Place)
    ensures p.id == c.id && p.original == Some(c) && p.price.VStr?
    ensures Truthy(p.category) && Truthy(p.indoorOutdoor) && Truthy(p.location)
    ensures Truthy(c.category) ==> p.category == c.category
  {
    Place(c.id, OrElse(c.name, "Unnamed Destination"), CatalogPrice(c.price), Or(c.category, VStr("Lainnya")),
          Or(c.indoorOutdoor, VStr("both")), Or(c.location, VStr("Jakarta")), Some(c), None)
  }

  /** The culinary place injected from the catalog when the trip has none (it carries no indoor/outdoor field). */
  function CulinaryFromCatalog(c: Catalog): (p: Place)
    ensures p.id == c.id && p.category == VStr("Kuliner") && p.original == Some(c)
  {
    Place(c.id, OrElse(c.name, "Tempat Makan"), CatalogPrice(c.price), VStr("Kuliner"), VNone,
          Or(c.location, VStr("Jakarta")), Some(c), None)
  }

  /** The stand-in culinary place used when the catalog has none. */
  const DummyCulinary: Place :=
    Place("dummy-culinary", "Tempat Makan lokal", VStr("Rp 15000"), VStr("Kuliner"), VNone, VStr("Jakarta Pusat"), None, None)

  /** `dest.original?.location`. */
  function OriginalLocation(p: Place): Value
  {
    if p.original.Some? then p.original.value.location else VNone
  }

  /** `dest.original?.location || dest.location`: the location the route optimiser reads. */
  function RouteLocation(p: Place): Value
  {
    Or(OriginalLocation(p), p.location)
  }

  /** `dest.location || dest.original?.location || fallback`: the location the scheduler reads. */
  function VisitLocation(p: Place, fallback: string): (v: Value)
    ensures fallback != "" ==> Truthy(v)
  {
    Or(Or(p.location, OriginalLocation(p)), VStr(fallback))
  }

  /** `dest.original?.description || ''`. */
  function Description(p: Place): (v: Value)
    ensures p.original.Some? && Truthy(p.original.value.description) ==> v == p.original.value.description
    ensures p.original.None? || !Truthy(p.original.value.description) ==> v == VStr("")
  {
    Or(if p.original.Some? then p.original.value.description else VNone, VStr(""))
  }

  /** A description on which `.toLowerCase()` would be called on a non-string. */
  predicate DescriptionThrows(p: Place)
  {
    !Description(p).VStr?
  }

  /** `(dest.original?.description || '').toLowerCase()`, where it does not throw. */
  function LowerDescription(p: Place): string
  {
    if Description(p).VStr? then ToLower(Description(p).s) else ""
  }

  /** A category on which `getCategoryEmoji` would call `.toLowerCase()` on a non-string. */
  predicate CategoryThrows(category: Value)
  {
    Truthy(category) && !category.VStr?
  }

  /**
   * The pictographs of `RundownGenerator.jsx` are written as the file holds
   * them: its emoji were saved as UTF-8 read back as Mac Roman, so the
   * program shows `\U{F8FF}\U{FC}\U{EC}\U{E7}` where a pin was meant.
   */
  const Pin: string := "\U{F8FF}\U{FC}\U{EC}\U{E7}"

  /**
   * `getCategoryEmoji`: the pin for a falsy category, else the emoji of the
   * lower-cased category; `None` is the `TypeError` of a truthy non-string.
   */
  function CategoryEmoji(category: Value): (r: Option<string>)
    ensures r.None? <==> CategoryThrows(category)
    ensures !Truthy(category) ==> r == Some(Pin)
    ensures category.VStr? && Truthy(category) ==> r == Some(EmojiOf(ToLower(category.s)))
  {
    if !Truthy(category) then Some(Pin)
    else if category.VStr? then Some(EmojiOf(ToLower(category.s)))
    else None
  }

  /** The `switch` of `getCategoryEmoji` on the lower-cased category. */
  function EmojiOf(c: string): string
  {
    if c == "kuliner" then "\U{F8FF}\U{FC}\U{E7}\U{FA}"
    else if c == "rekreasi" then "\U{F8FF}\U{FC}\U{E9}\U{B0}"
    else if c == "sejarah" then "\U{F8FF}\U{FC}\U{E8}\U{F5}\U{D4}\U{220F}\U{E8}"
    else if c == "belanja" then "\U{F8FF}\U{FC}\U{F5}\U{E7}\U{D4}\U{220F}\U{E8}"
    else if c == "edukasi" then "\U{F8FF}\U{FC}\U{EC}\U{F6}"
    else if c == "alam" then "\U{F8FF}\U{FC}\U{E5}\U{2265}"
    else if c == "cafe" then "\U{201A}\U{F2}\U{EF}"
    else if c == "venue" then "\U{F8FF}\U{FC}\U{E8}\U{FB}\U{D4}\U{220F}\U{E8}"
    else if c == "budaya" then "\U{F8FF}\U{FC}\U{E9}\U{2260}"
    else Pin
  }

  /** The list of ids of a list of places. */
  function Ids(ps: seq<Place>): (ids: seq<string>)
    ensures |ids| == |ps|
    ensures forall i :: 0 <= i < |ps| ==> ids[i] == ps[i].id
  {
    if ps == [] then [] else [ps[0].id] + Ids(ps[1..])
  }
}
