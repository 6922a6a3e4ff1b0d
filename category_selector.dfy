/** The category pill selector (components/CategorySelector.tsx). */
module CategorySelector {
  import opened EventCategories
  import opened Lists
  import Text

  /** `toggle(cat)`: the array handed to `onChange`; a present category goes through `selected.filter(s => s !== cat)`. */
  function Toggle(selected: seq<string>, cat: string): (r: seq<string>)
    // membership flips for the toggled category and for no other
    ensures cat in r <==> cat !in selected
    ensures forall y :: y != cat ==> (y in r <==> y in selected)
    // an absent category is appended at the end
    ensures cat !in selected ==> r == selected + [cat]
    // a present one is dropped everywhere, the rest kept: only whole entries disappear
    ensures cat in selected ==> |r| < |selected|
  {
    if cat in selected then RemoveAll(selected, cat) else selected + [cat]
  }

  /** Toggling a category in and out again restores the original selection. */
  lemma ToggleTwice(selected: seq<string>, cat: string)
    requires cat !in selected
    ensures Toggle(Toggle(selected, cat), cat) == selected
  {
    RemoveAllAppend(selected, [cat], cat);
  }

  /** Toggle keeps a duplicate-free selection duplicate-free. */
  lemma ToggleDistinct(selected: seq<string>, cat: string)
    requires Distinct(selected)
    ensures Distinct(Toggle(selected, cat))
  {
    if cat in selected {
      RemoveAllDistinct(selected, cat);
    }
  }

  /** One rendered pill: its category and whether it is highlighted. */
  datatype Pill = Pill(category: string, active: bool)

  /** The pills rendered for `selected`, in `EVENT_CATEGORIES` order, each active iff selected. */
  function Pills(selected: seq<string>): (ps: seq<Pill>)
    ensures |ps| == |EVENT_CATEGORIES|
    ensures forall i :: 0 <= i < |ps| ==> ps[i].category == EVENT_CATEGORIES[i]
    ensures forall i :: 0 <= i < |ps| ==> (ps[i].active <==> EVENT_CATEGORIES[i] in selected)
  {
    seq(|EVENT_CATEGORIES|, i requires 0 <= i < |EVENT_CATEGORIES| =>
      Pill(EVENT_CATEGORIES[i], EVENT_CATEGORIES[i] in selected))
  }

  /** What `onChange` receives when `toggle` runs, or the exception it throws. */
  datatype Emitted = Emitted(value: seq<string>) | TypeError

  /**
   * `toggle(cat)` when the caller passes a string as `selected`: `includes` is
   * then a substring test, a string has no `filter`, and the spread yields its characters.
   */
  function ToggleOnText(selected: string, cat: string): (e: Emitted)
    ensures e.Emitted? <==> !Text.Contains(selected, cat)
    ensures e.Emitted? ==> |e.value| == |selected| + 1 && e.value[|selected|] == cat
    // the spread turns the string into its one-character strings, in order
    ensures e.Emitted? ==> forall i :: 0 <= i < |selected| ==> e.value[i] == [selected[i]]
  {
    if Text.Contains(selected, cat) then TypeError
    else Emitted(seq(|selected|, i requires 0 <= i < |selected| => [selected[i]]) + [cat])
  }
}
