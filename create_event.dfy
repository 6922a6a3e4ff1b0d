/** The event creation form (app/CreateEvent.tsx). */
module CreateEvent {
  import opened Wrappers
  import opened Text
  import opened Alerts
  import FirebaseErrors
  import CategorySelector

  /** A map coordinate; the model only stores and compares it. */
  datatype Coord = Coord(latitude: int, longitude: int)

  /** A reverse-geocoding hit; "" stands for a missing part. */
  datatype Place = Place(street: string, name: string, postalCode: string, city: string, district: string)

  /** The address template used after both geocoding paths. */
  function FormatAddress(g: Place): (r: string)
    ensures IsTrimmed(r)
    // the comma of the template always survives, so a hit never yields an empty address
    ensures ',' in r
  {
    var locality := if g.city != "" then g.city else g.district;
    var raw := g.street + " " + g.name + ", " + g.postalCode + " " + locality;
    assert raw[|g.street + " " + g.name|] == ',';
    TrimKeepsNonBlank(raw, |g.street + " " + g.name|);
    Trim(raw)
  }

  /** The city takes precedence: the district only matters when the city is missing. */
  lemma CityBeforeDistrict(g: Place, district: string)
    requires g.city != ""
    ensures FormatAddress(g.(district := district)) == FormatAddress(g)
  {
  }

  /** A place with every part missing gives the bare comma. */
  lemma EmptyPlaceAddress()
    ensures FormatAddress(Place("", "", "", "", "")) == ","
  {
    var raw := "" + " " + "" + ", " + "" + " " + "";
    assert raw == [' ', ',', ' ', ' '];
    TrimUnique(raw, 1, 2);
    assert raw[1..2] == [','];
  }

  /** The guard of `handleSubmit`: some required field is empty or unset. */
  predicate RequiredMissing(title: string, description: string, location: Option<Coord>, address: string,
                            category: string, date: Option<string>, time: Option<string>)
    // a form that passes has every text filled in and every choice made
    ensures !RequiredMissing(title, description, location, address, category, date, time) ==>
              && title != "" && description != "" && address != "" && category != ""
              && location.Some? && date.Some? && time.Some?
    ensures title == "" || description == "" || location.None? || address == "" || category == "" ==>
              RequiredMissing(title, description, location, address, category, date, time)
  {
    title == "" || description == "" || location.None? || address == "" || category == ""
    || date.None? || time.None?
  }

  // ---- the category adapter -------------------------------------------------

  /**
   * The category after a pill press, AS WRITTEN: the form hands its category
   * string to the selector as `selected`, and keeps what `onChange` gives it
   * only when that is a string. A press that throws leaves the category as it was.
   */
  function CategoryAfterPressAsWritten(category: string, cat: string): (r: string)
    // a press never chooses a category: it keeps the old one or empties it
    ensures r == "" || r == category
    // on an empty category any press emits an array, which the adapter turns into ""
    ensures category == "" && cat != "" ==> r == ""
  {
    assert category == "" && cat != "" ==> !Text.Contains(category, cat) by {
      if category == "" && cat != "" && Text.Contains(category, cat) { Text.ContainsNeedsRoom(category, cat); }
    }
    match CategorySelector.ToggleOnText(category, cat)
    case TypeError => category
    case Emitted(_) => ""
  }

  /** The category after a run of pill presses, as written. */
  function PressAllAsWritten(category: string, presses: seq<string>): string
    decreases |presses|
  {
    if presses == [] then category else PressAllAsWritten(CategoryAfterPressAsWritten(category, presses[0]), presses[1..])
  }

  /** As written, no sequence of presses ever sets a category, so submit always rejects. */
  lemma {:induction false} AsWrittenCategoryStaysEmpty(presses: seq<string>)
    requires forall i :: 0 <= i < |presses| ==> presses[i] != ""
    ensures PressAllAsWritten("", presses) == ""
  {
    if presses != [] {
      AsWrittenCategoryStaysEmpty(presses[1..]);
    }
  }

  /** The concrete case: pressing "Sport" on a fresh form leaves the category empty, and the form cannot be sent. */
  lemma AsWrittenSportPressIgnored(title: string, description: string, location: Option<Coord>, address: string,
                                   date: Option<string>, time: Option<string>)
    ensures CategoryAfterPressAsWritten("", "Sport") == ""
    ensures RequiredMissing(title, description, location, address, CategoryAfterPressAsWritten("", "Sport"), date, time)
  {
  }

  /** The selection the form should hand to the selector: its one category, if any. */
  function SelectedList(category: string): seq<string> {
    if category == "" then [] else [category]
  }

  /** The single category an `onChange` array stands for: the most recently added entry. */
  function CategoryFromSelection(sel: seq<string>): string {
    if sel == [] then "" else sel[|sel| - 1]
  }

  /** The corrected press: pressing the chosen category clears it, pressing another one chooses that one. */
  function CategoryAfterPress(category: string, cat: string): (r: string)
    ensures r == (if category == cat then "" else cat)
  {
    var sel := CategorySelector.Toggle(SelectedList(category), cat);
    assert category != "" && category != cat ==> sel == [category, cat];
    CategoryFromSelection(sel)
  }

  /** With the corrected adapter a press of a category makes a filled form sendable. */
  lemma CorrectedPressEnablesSubmit(title: string, description: string, location: Coord, address: string,
                                    cat: string, date: string, time: string)
    requires title != "" && description != "" && address != "" && cat != ""
    ensures !RequiredMissing(title, description, Some(location), address, CategoryAfterPress("", cat), Some(date), Some(time))
  {
  }

  // ---- the form ------------------------------------------------------------------

  /** The three ways a reverse-geocoding call ends. */
  datatype GeoOutcome = GeoHit(place: Place) | GeoEmpty | GeoThrew

  /** The ways an address search ends: no match, the search threw, or a match whose reverse geocoding ended as given. */
  datatype SearchOutcome = NoMatch | SearchThrew | Matched(coord: Coord, reverse: GeoOutcome)

  /** The document `handleSubmit` adds. */
  datatype EventDoc = EventDoc(title: string, description: string, location: Coord, address: string,
                               category: string, date: string, time: string, userId: string, createdAt: string)

  class CreateEventForm {
    var title: string
    var description: string
    var location: Option<Coord>
    var address: string
    var addressInput: string
    var isGeocoding: bool
    var category: string
    /** The picked date as "YYYY-MM-DD" and time as "HH:MM". */
    var date: Option<string>
    var time: Option<string>
    /** The address text an unfinished search was started with. */
    var searchQuery: string
    var alerts: seq<Alert>
    var events: seq<EventDoc>
    var navigatedHome: bool

    constructor(events: seq<EventDoc>)
      ensures title == "" && description == "" && location == None && address == "" && addressInput == ""
      ensures !isGeocoding && category == "" && date == None && time == None
      ensures alerts == [] && this.events == events && !navigatedHome
    {
      title, description, location, address, addressInput := "", "", None, "", "";
      isGeocoding, category, date, time := false, "", None, None;
      searchQuery := "";
      alerts, this.events, navigatedHome := [], events, false;
    }

    /** The mount effect: once location permission is granted, the device position becomes the default location. */
    method UseDevicePosition(granted: bool, position: Coord)
      modifies this`location
      ensures location == (if granted then Some(position) else old(location))
    {
      if granted {
        location := Some(position);
      }
    }

    /** `handleMapPress` up to its `await`: the tapped point is taken at once and geocoding starts. */
    method BeginMapPress(coord: Coord)
      modifies this`location, this`isGeocoding
      ensures location == Some(coord) && isGeocoding
    {
      location := Some(coord);
      isGeocoding := true;
    }

    /** `handleMapPress` after its `await`: the address follows the outcome and geocoding ends on every path. */
    method FinishMapPress(outcome: GeoOutcome)
      modifies this`address, this`addressInput, this`isGeocoding
      ensures !isGeocoding
      ensures outcome.GeoHit? ==> address == FormatAddress(outcome.place) && addressInput == address
      ensures outcome.GeoEmpty? ==> address == "Nieznany adres" && addressInput == ""
      ensures outcome.GeoThrew? ==> address == "Błąd pobierania adresu" && addressInput == ""
    {
      match outcome {
        case GeoHit(g) =>
          var addr := FormatAddress(g);
          address := addr;
          addressInput := addr;
        case GeoEmpty =>
          address := "Nieznany adres";
          addressInput := "";
        case GeoThrew =>
          address := "Błąd pobierania adresu";
          addressInput := "";
      }
      isGeocoding := false;
    }

    /** `handleAddressSearch` up to its first `await`; a blank input changes nothing and starts nothing. */
    method BeginAddressSearch() returns (started: bool)
      modifies this`isGeocoding, this`searchQuery
      ensures started <==> Trim(old(addressInput)) != ""
      ensures !started ==> isGeocoding == old(isGeocoding) && searchQuery == old(searchQuery)
      ensures started ==> isGeocoding && searchQuery == addressInput
    {
      if Trim(addressInput) == "" {
        return false;
      }
      isGeocoding := true;
      searchQuery := addressInput;
      started := true;
    }

    /** `handleAddressSearch` after its `await`s. */
    method FinishAddressSearch(outcome: SearchOutcome)
      modifies this`location, this`address, this`addressInput, this`isGeocoding, this`alerts
      ensures !isGeocoding
      ensures outcome.Matched? ==> location == Some(outcome.coord)
      ensures !outcome.Matched? ==> location == old(location)
      ensures outcome.Matched? && outcome.reverse.GeoHit? ==>
                address == FormatAddress(outcome.reverse.place) && addressInput == address && alerts == old(alerts)
      // a match that reverse-geocodes to nothing keeps the typed text as the address
      ensures outcome.Matched? && outcome.reverse.GeoEmpty? ==>
                address == searchQuery && addressInput == old(addressInput) && alerts == old(alerts)
      ensures outcome.NoMatch? ==>
                address == old(address) && addressInput == old(addressInput)
                && alerts == old(alerts) + [Alert("Nie znaleziono lokalizacji dla podanego adresu.", "")]
      ensures outcome.SearchThrew? || (outcome.Matched? && outcome.reverse.GeoThrew?) ==>
                address == old(address) && addressInput == old(addressInput)
                && alerts == old(alerts) + [Alert("Błąd podczas wyszukiwania adresu.", "")]
    {
      match outcome {
        case NoMatch =>
          alerts := alerts + [Alert("Nie znaleziono lokalizacji dla podanego adresu.", "")];
        case SearchThrew =>
          alerts := alerts + [Alert("Błąd podczas wyszukiwania adresu.", "")];
        case Matched(c, reverse) =>
          location := Some(c);
          match reverse {
            case GeoHit(g) =>
              var addr := FormatAddress(g);
              address := addr;
              addressInput := addr;
            case GeoEmpty =>
              address := searchQuery;
            case GeoThrew =>
              alerts := alerts + [Alert("Błąd podczas wyszukiwania adresu.", "")];
          }
      }
      isGeocoding := false;
    }

    /** A category pill press, as written: the category is never set to the pressed one. */
    method PressCategory(cat: string)
      modifies this`category
      ensures category == CategoryAfterPressAsWritten(old(category), cat)
      ensures category == "" || category == old(category)
    {
      category := CategoryAfterPressAsWritten(category, cat);
    }

    /** A category pill press, through the corrected adapter. */
    method PressCategoryCorrected(cat: string)
      modifies this`category
      ensures category == (if old(category) == cat then "" else cat)
    {
      category := CategoryAfterPress(category, cat);
    }

    /** `handleSubmit`: validates, needs a signed-in user, then adds the event document. */
    method HandleSubmit(currentUid: Option<string>, createdAt: string, outcome: FirebaseErrors.WriteOutcome)
      modifies this`alerts, this`events, this`navigatedHome
      ensures RequiredMissing(title, description, location, address, category, date, time) ==>
                events == old(events) && navigatedHome == old(navigatedHome)
                && alerts == old(alerts) + [Alert("Uzupełnij wszystkie pola", "")]
      ensures !RequiredMissing(title, description, location, address, category, date, time) && currentUid.None? ==>
                events == old(events) && navigatedHome == old(navigatedHome) && alerts == old(alerts)
      ensures !RequiredMissing(title, description, location, address, category, date, time) && currentUid.Some? ==>
                match outcome
                case WriteOk =>
                  && events == old(events) + [EventDoc(title, description, location.value, address, category,
                                                       date.value, time.value, currentUid.value, createdAt)]
                  && navigatedHome && alerts == old(alerts) + [Alert("Wydarzenie utworzone!", "")]
                case WriteThrew(e) =>
                  && events == old(events) && navigatedHome == old(navigatedHome)
                  && alerts == old(alerts) + [Alert("Błąd podczas zapisywania wydarzenia", FirebaseErrors.FirebaseErrorMessage(e))]
    {
      if RequiredMissing(title, description, location, address, category, date, time) {
        alerts := alerts + [Alert("Uzupełnij wszystkie pola", "")];
        return;
      }
      if currentUid.None? {
        return;
      }
      match outcome {
        case WriteOk =>
          events := events + [EventDoc(title, description, location.value, address, category,
                                       date.value, time.value, currentUid.value, createdAt)];
          alerts := alerts + [Alert("Wydarzenie utworzone!", "")];
          navigatedHome := true;
        case WriteThrew(e) =>
          alerts := alerts + [Alert("Błąd podczas zapisywania wydarzenia", FirebaseErrors.FirebaseErrorMessage(e))];
      }
    }
  }
}
