/**
 * The questionnaire's answers as `generateRundown` receives them, and the
 * answer-recording step `handleOptionSelect`.
 */
module Preferences {
  import opened JsValues
  import opened Lists

  /**
   * The answers. `category` is the checkbox list of catalog categories; every
   * other answer is the string value of a radio or time input.
   */
  datatype Prefs = Prefs(
    environment: string,
    budget: string,
    duration: string,
    category: seq<string>,
    mealPreference: string,
    transportMethod: string,
    startTime: string,
    travelStyle: string,
    priority: string)

  /** An answer held in the responses object: one radio value or a checkbox list. */
  datatype Answer = Choice(s: string) | Choices(xs: seq<string>)

  /** `item => item !== value`. */
  function Other(v: string): string -> bool
  {
    (x: string) => x != v
  }

  /** Ticking a checkbox value: remove every copy when it is ticked, append it otherwise. */
  function Toggle(xs: seq<string>, v: string): (r: seq<string>)
  {
    if v in xs then Filter(xs, Other(v)) else xs + [v]
  }

  /** `handleOptionSelect(questionId, value, isCheckbox)` on the previous responses. */
  function SelectOption(prev: map<string, Answer>, q: string, v: string, isCheckbox: bool): (r: map<string, Answer>)
    requires isCheckbox && q in prev ==> prev[q].Choices?
    ensures q in r && forall k :: k in prev && k != q ==> k in r && r[k] == prev[k]
    ensures forall k :: k in r ==> k in prev || k == q
    ensures !isCheckbox ==> r[q] == Choice(v)
    ensures isCheckbox ==> r[q] == Choices(Toggle(if q in prev then prev[q].xs else [], v))
  {
    if isCheckbox then
      var current := if q in prev then prev[q].xs else [];
      prev[q := Choices(Toggle(current, v))]
    else prev[q := Choice(v)]
  }

  /** After a toggle the value is ticked exactly when it was not, and every other value keeps its state. */
  lemma ToggleFlips(xs: seq<string>, v: string)
    ensures v in Toggle(xs, v) <==> v !in xs
    ensures forall w :: w != v ==> (w in Toggle(xs, v) <==> w in xs)
  {
    FilterMembers(xs, Other(v));
  }

  /** Ticking a fresh value and unticking it again restores the list. */
  lemma ToggleTwice(xs: seq<string>, v: string)
    requires v !in xs
    ensures Toggle(Toggle(xs, v), v) == xs
  {
    assert v in xs + [v];
    FilterAppend(xs, [v], Other(v));
    FilterAll(xs, Other(v));
    assert Filter([v], Other(v)) == [];
  }
}
