/**
 * The add-spot page: the form's text fields, the image choice with its
 * size limit, the city search with its suggestions, the amenity toggles,
 * and the validation and defaulting that turn the form into a new spot.
 */
module AddSpot {
  import opened Maybe
  import opened Lists
  import opened Text
  import opened Locations
  import AmenityFilter
  import opened AddParkingSpot

  /** Images above 5 MiB are refused. */
  const MaxImageBytes: nat := 5 * 1024 * 1024

  /** The amenity ids the form offers. */
  const AmenityOptions: seq<string> := ["cctv", "covered", "ev_charging", "security", "wifi"]

  /** The form's fields, all kept as entered text. */
  datatype FormData = FormData(
    name: string, address: string, city: string, description: string,
    price: string, total: string, available: string, lat: string, lng: string)

  const EmptyForm: FormData := FormData("", "", "", "", "", "", "", "", "")

  /** Why a submission was refused. */
  datatype SubmitError = MissingRequired | MissingCoordinates

  /** The required fields: name, address, city, price and total. */
  predicate HasRequired(f: FormData) {
    f.name != "" && f.address != "" && f.city != "" && f.price != "" && f.total != ""
  }

  predicate HasCoordinates(f: FormData) {
    f.lat != "" && f.lng != ""
  }

  /**
   * The validation and defaulting of `handleSubmit`, with `parseFloat` and
   * `parseInt(_, 10)` as parameters: an empty available count means the
   * total, and an empty description means none.
   */
  function BuildSpot(f: FormData, amenities: seq<string>,
                     parseFloat: string -> real, parseInt: string -> int): Result<NewParkingSpot, SubmitError> {
    if !HasRequired(f) then Failure(MissingRequired)
    else if !HasCoordinates(f) then Failure(MissingCoordinates)
    else
      Success(NewParkingSpot(
        f.name, f.address, f.city, if f.description == "" then None else Some(f.description),
        parseFloat(f.price), parseInt(f.total), parseInt(if f.available == "" then f.total else f.available),
        parseFloat(f.lat), parseFloat(f.lng), amenities))
  }

  /**
   * A spot is built exactly when the required fields and the coordinates are
   * filled (a missing required field is reported first); then the text
   * fields are copied, the price, total and coordinates are the parsed form
   * text, an empty available count takes the total's value, an empty
   * description becomes none, and the chosen amenities are carried over.
   */
  lemma BuildSpotSpec(f: FormData, amenities: seq<string>, parseFloat: string -> real, parseInt: string -> int)
    ensures BuildSpot(f, amenities, parseFloat, parseInt).Success? <==> HasRequired(f) && HasCoordinates(f)
    ensures !HasRequired(f) ==> BuildSpot(f, amenities, parseFloat, parseInt) == Failure(MissingRequired)
    ensures HasRequired(f) && !HasCoordinates(f) ==> BuildSpot(f, amenities, parseFloat, parseInt) == Failure(MissingCoordinates)
    ensures BuildSpot(f, amenities, parseFloat, parseInt).Success? ==>
      var s := BuildSpot(f, amenities, parseFloat, parseInt).value;
      (f.available == "" ==> s.available == s.total) &&
      (f.available != "" ==> s.available == parseInt(f.available)) &&
      (s.description.None? <==> f.description == "") &&
      s.amenities == amenities && s.name == f.name && s.city == f.city && s.address == f.address &&
      s.price == parseFloat(f.price) && s.total == parseInt(f.total) &&
      s.lat == parseFloat(f.lat) && s.lng == parseFloat(f.lng)
  {
  }

  /** A suggestion is always a catalogue entry, so selecting it always finds a city. */
  lemma SuggestionResolves(query: string, loc: Location)
    requires loc in SearchLocations(query)
    ensures GetLocationByCity(loc.city).Some?
    ensures Lower(GetLocationByCity(loc.city).value.city) == Lower(loc.city)
  {
    SearchSubsequence(PopularLocations, query);
    SubsequenceMembers(SearchLocations(query), PopularLocations, loc);
    FindCityMember(PopularLocations, loc);
  }

  class AddSpotForm {
    var formData: FormData
    var imageFile: Option<ImageFile>
    var citySearch: string
    var showCitySuggestions: bool
    var selectedAmenities: seq<string>

    constructor ()
      ensures formData == EmptyForm && imageFile.None? && citySearch == ""
      ensures !showCitySuggestions && selectedAmenities == []
    {
      formData := EmptyForm;
      imageFile := None;
      citySearch := "";
      showCitySuggestions := false;
      selectedAmenities := [];
    }

    /** `handleImageSelect`: no file, or a file above 5 MiB, leaves the chosen image unchanged. */
    method SelectImage(file: Option<ImageFile>)
      modifies this`imageFile
      ensures file.Some? && file.value.size <= MaxImageBytes ==> imageFile == file
      ensures file.None? || file.value.size > MaxImageBytes ==> imageFile == old(imageFile)
    {
      if file.Some? {
        if file.value.size > MaxImageBytes {
          return;
        }
        imageFile := file;
      }
    }

    /** `removeImage`. */
    method RemoveImage()
      modifies this`imageFile
      ensures imageFile.None?
    {
      imageFile := None;
    }

    /** Typing in the city field opens the suggestions. */
    method TypeCity(text: string)
      modifies this`citySearch, this`showCitySuggestions
      ensures citySearch == text && showCitySuggestions
    {
      citySearch := text;
      showCitySuggestions := true;
    }

    /** Focusing the city field opens the suggestions. */
    method FocusCity()
      modifies this`showCitySuggestions
      ensures showCitySuggestions
    {
      showCitySuggestions := true;
    }

    /** The suggestions for the city field. */
    function Suggestions(): seq<Location>
      reads this
    {
      SearchLocations(citySearch)
    }

    /**
     * `handleCitySelect(city)`, with `toString` on coordinates as a parameter:
     * a catalogue city fills city, latitude, longitude and the search text;
     * an unknown one changes neither. The suggestions close either way.
     */
    method CitySelect(city: string, showNumber: real -> string)
      modifies this`formData, this`citySearch, this`showCitySuggestions
      ensures !showCitySuggestions
      ensures GetLocationByCity(city).None? ==> formData == old(formData) && citySearch == old(citySearch)
      ensures GetLocationByCity(city).Some? ==>
        var loc := GetLocationByCity(city).value;
        formData == old(formData).(city := loc.city, lat := showNumber(loc.lat), lng := showNumber(loc.lng)) &&
        citySearch == loc.city
    {
      ApplyLocation(GetLocationByCity(city), showNumber);
    }

    /** The effect of a looked-up location on the form, `undefined` included. */
    method ApplyLocation(location: Option<Location>, showNumber: real -> string)
      modifies this`formData, this`citySearch, this`showCitySuggestions
      ensures !showCitySuggestions
      ensures location.None? ==> formData == old(formData) && citySearch == old(citySearch)
      ensures location.Some? ==>
        formData == old(formData).(city := location.value.city, lat := showNumber(location.value.lat),
                                   lng := showNumber(location.value.lng)) &&
        citySearch == location.value.city
    {
      if location.Some? {
        var loc := location.value;
        formData := formData.(city := loc.city, lat := showNumber(loc.lat), lng := showNumber(loc.lng));
        citySearch := loc.city;
      }
      showCitySuggestions := false;
    }

    /** `toggleAmenity`: the same rule as the amenity filter. */
    method ToggleAmenity(id: string)
      modifies this`selectedAmenities
      ensures selectedAmenities == AmenityFilter.Toggle(old(selectedAmenities), id)
    {
      selectedAmenities := AmenityFilter.Toggle(selectedAmenities, id);
    }

    /**
     * `handleSubmit`: a refused form adds nothing and does not touch the hook;
     * an accepted one is handed to `addParkingSpot` with the chosen image.
     */
    method Submit(hook: AddSpotHook, user: Option<string>, now: nat,
                  parseFloat: string -> real, parseInt: string -> int,
                  upload: string -> Result<string, string>, insert: SpotInsert -> bool)
      returns (added: Option<SpotInsert>)
      modifies hook
      ensures BuildSpot(formData, selectedAmenities, parseFloat, parseInt).Failure? ==>
        added.None? && hook.isLoading == old(hook.isLoading)
      ensures BuildSpot(formData, selectedAmenities, parseFloat, parseInt).Success? ==>
        added == AddResult(user, BuildSpot(formData, selectedAmenities, parseFloat, parseInt).value,
                           imageFile, now, upload, insert)
    {
      var built := BuildSpot(formData, selectedAmenities, parseFloat, parseInt);
      if built.Failure? {
        return None;
      }
      added := hook.Add(user, built.value, imageFile, now, upload, insert);
    }
  }

  /**
   * Picking a catalogue city fills the coordinates, so a form with the
   * required fields then always passes validation (number text is never empty).
   */
  lemma CitySelectFillsCoordinates(f: FormData, loc: Location, showNumber: real -> string)
    requires showNumber(loc.lat) != "" && showNumber(loc.lng) != ""
    requires loc.city != ""
    requires f.name != "" && f.address != "" && f.price != "" && f.total != ""
    ensures HasRequired(f.(city := loc.city, lat := showNumber(loc.lat), lng := showNumber(loc.lng)))
    ensures HasCoordinates(f.(city := loc.city, lat := showNumber(loc.lat), lng := showNumber(loc.lng)))
  {
  }
}
