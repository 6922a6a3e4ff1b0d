/** The fixed list of event categories (types/eventCategory.ts). */
module EventCategories {

  /** The `EventCategory` union type. */
  datatype EventCategory = Sport | Culture | BoardGames | Travel | Movies | Other {
    /** The string literal of the union member. */
    function Name(): string {
      match this
      case Sport => "Sport"
      case Culture => "Kultura"
      case BoardGames => "Gry planszowe"
      case Travel => "Podróże"
      case Movies => "Filmy"
      case Other => "Inne"
    }
  }

  /** `EVENT_CATEGORIES`. */
  const EVENT_CATEGORIES: seq<string> := ["Sport", "Kultura", "Gry planszowe", "Podróże", "Filmy", "Inne"]

  /** A string is a member of the `EventCategory` union. */
  predicate IsEventCategory(s: string) {
    exists c: EventCategory :: c.Name() == s
  }

  datatype CategoryOption = CategoryOption(value: string, labelText: string)

  /** `EVENT_CATEGORY_OPTIONS`: one option per category, labelled with its own value. */
  function EventCategoryOptions(): (opts: seq<CategoryOption>)
    ensures |opts| == |EVENT_CATEGORIES|
    ensures forall i :: 0 <= i < |opts| ==> opts[i].value == EVENT_CATEGORIES[i] && opts[i].labelText == opts[i].value
  {
    seq(|EVENT_CATEGORIES|, i requires 0 <= i < |EVENT_CATEGORIES| => CategoryOption(EVENT_CATEGORIES[i], EVENT_CATEGORIES[i]))
  }

  /** The list has six entries, pairwise distinct, each a member of the union, and every member is listed. */
  lemma CategoriesWellFormed()
    ensures |EVENT_CATEGORIES| == 6
    ensures forall i, j :: 0 <= i < j < |EVENT_CATEGORIES| ==> EVENT_CATEGORIES[i] != EVENT_CATEGORIES[j]
    ensures forall i :: 0 <= i < |EVENT_CATEGORIES| ==> IsEventCategory(EVENT_CATEGORIES[i])
    ensures forall c: EventCategory :: c.Name() in EVENT_CATEGORIES
  {
    assert EVENT_CATEGORIES[0] == Sport.Name();
    assert EVENT_CATEGORIES[1] == Culture.Name();
    assert EVENT_CATEGORIES[2] == BoardGames.Name();
    assert EVENT_CATEGORIES[3] == Travel.Name();
    assert EVENT_CATEGORIES[4] == Movies.Name();
    assert EVENT_CATEGORIES[5] == Other.Name();
  }
}
