/**
 * Loosely typed JavaScript objects as the pages and dialogs handle them:
 * a map from field name to a field value, with a missing field read as
 * `undefined`, and the `a.x || a.y || ... || d` fallback chains the code
 * uses to pick a field.
 */
module Records {
  import opened JsValues

  /** The names of the fields the pages read; any other field by its name. */
  datatype Field =
    | Activity | Address | Area | BudgetEstimation | Category | CategoryType | Cost | CreatedFrom | DataSource | Description | DestinationName | Duration
    | EstimatedCost | EstimatedDuration | Label | Location | Name | Notes | Order | Place | PlaceName | Price | Time | Title
    | TotalDestinations | TripType | Type | MinPrice | MaxPrice | StartTime | Rating | Id | Key | Featured | PriceType | UserId | Comment
    | DayNumber | OperatingHours | IndoorOutdoor | Username
    | OtherKey(name: string)

  /** A plain object whose fields are numbers or strings. */
  type Obj = map<Field, Value>

  /** `o.k`: `undefined` when the field is missing. */
  function Get(o: Obj, k: Field): (v: Value)
    ensures k !in o ==> v == VNone
    ensures k in o ==> v == o[k]
  {
    if k in o then o[k] else VNone
  }

  /** `o.k1 || o.k2 || ... || d`. */
  function FirstOf(o: Obj, keys: seq<Field>, d: Value): (r: Value)
    ensures (forall i :: 0 <= i < |keys| ==> !Truthy(Get(o, keys[i]))) ==> r == d
    ensures forall i :: (0 <= i < |keys| && Truthy(Get(o, keys[i]))
                         && forall j :: 0 <= j < i ==> !Truthy(Get(o, keys[j]))) ==> r == Get(o, keys[i])
    decreases |keys|
  {
    if keys == [] then d else Or(Get(o, keys[0]), FirstOf(o, keys[1..], d))
  }

  /** The chain ends in a truthy value: its value is truthy whatever the object holds. */
  lemma {:induction false} FirstOfTruthy(o: Obj, keys: seq<Field>, d: Value)
    requires Truthy(d)
    ensures Truthy(FirstOf(o, keys, d))
    decreases |keys|
  {
    if keys != [] {
      FirstOfTruthy(o, keys[1..], d);
    }
  }

  /** An object of the trip list that may carry the catalog record it was made from, as `original`. */
  datatype Entry = Entry(fields: Obj, original: Option<Obj>)

  /** `e.original?.k`. */
  function OriginalGet(e: Entry, k: Field): (v: Value)
    ensures e.original.None? ==> v == VNone
  {
    if e.original.Some? then Get(e.original.value, k) else VNone
  }
}
