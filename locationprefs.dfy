/**
 * The location preference hook: a preference kept in the browser's local
 * storage for everyone and in the `user_preferences` table for signed-in
 * users, the rule that picks which one is shown, and how a stored row is
 * turned back into a catalogue location.
 */
module LocationPreferences {
  import opened Maybe
  import opened Text
  import opened Locations

  /** `LocationPreference`: the four fields kept of a catalogue location. */
  datatype Preference = Preference(city: string, state: string, lat: real, lng: real)

  /** The local storage key the preference is kept under. */
  const StorageKey: string := "parkease_selected_location"

  function PreferenceOf(loc: Location): (p: Preference)
    ensures p.city == loc.city && p.state == loc.state && p.lat == loc.lat && p.lng == loc.lng
  {
    Preference(loc.city, loc.state, loc.lat, loc.lng)
  }

  /** A `user_preferences` row as selected: both columns are nullable. */
  datatype PreferenceRow = PreferenceRow(selectedCity: Option<string>, selectedState: Option<string>)

  /**
   * The query's mapping of a row (or of no row) over a catalogue: a null or
   * empty `selected_city`, or one the catalogue does not know, gives null;
   * a known one gives the catalogue entry's fields, not the row's spelling.
   */
  function PreferenceFromRow(table: seq<Location>, row: Option<PreferenceRow>): Option<Preference> {
    if row.Some? && row.value.selectedCity.Some? && row.value.selectedCity.value != "" then
      var location := FindCity(table, row.value.selectedCity.value);
      if location.Some? then Some(PreferenceOf(location.value)) else None
    else None
  }

  /**
   * A row yields a preference exactly when its city is set, non-empty and
   * names a catalogue entry up to letter case; the preference then carries
   * the first such entry's city, state and coordinates.
   */
  lemma PreferenceFromRowSpec(table: seq<Location>, row: Option<PreferenceRow>)
    ensures PreferenceFromRow(table, row).Some? <==>
      row.Some? && row.value.selectedCity.Some? && row.value.selectedCity.value != "" &&
      exists i :: 0 <= i < |table| && Lower(table[i].city) == Lower(row.value.selectedCity.value)
    ensures PreferenceFromRow(table, row).Some? ==>
      exists k :: 0 <= k < |table| && PreferenceFromRow(table, row).value == PreferenceOf(table[k]) &&
        Lower(table[k].city) == Lower(row.value.selectedCity.value) &&
        forall j :: 0 <= j < k ==> Lower(table[j].city) != Lower(row.value.selectedCity.value)
  {
    if row.Some? && row.value.selectedCity.Some? && row.value.selectedCity.value != "" {
      FindCitySpec(table, row.value.selectedCity.value);
    }
  }

  /** The selected state column is never consulted: only the city decides. */
  lemma PreferenceIgnoresState(table: seq<Location>, city: Option<string>, s1: Option<string>, s2: Option<string>)
    ensures PreferenceFromRow(table, Some(PreferenceRow(city, s1))) == PreferenceFromRow(table, Some(PreferenceRow(city, s2)))
  {
  }

  /**
   * What the query holds as `data`: nothing while signed out, nothing when
   * a first fetch failed (the query is in error), else the row mapped over
   * the catalogue (the hook's is `PopularLocations`, through `getLocationByCity`).
   */
  function DbData(table: seq<Location>, user: Option<string>, reply: Result<Option<PreferenceRow>, string>): Option<Preference> {
    if user.None? then None
    else if reply.Failure? then None
    else PreferenceFromRow(table, reply.value)
  }

  /** `user ? (dbPreferenceQuery.data ?? localLocation) : localLocation`. */
  function SelectedLocation(user: Option<string>, db: Option<Preference>, local: Option<Preference>): Option<Preference> {
    if user.Some? then (if db.Some? then db else local) else local
  }

  /**
   * Signed out, the local preference is shown whatever the database holds;
   * signed in, a database preference wins, and the local one is the fallback.
   * The shown preference is always one of the two.
   */
  lemma SelectedLocationSpec(user: Option<string>, db: Option<Preference>, local: Option<Preference>)
    ensures user.None? ==> SelectedLocation(user, db, local) == local
    ensures user.Some? && db.Some? ==> SelectedLocation(user, db, local) == db
    ensures user.Some? && db.None? ==> SelectedLocation(user, db, local) == local
    ensures SelectedLocation(user, db, local) == db || SelectedLocation(user, db, local) == local
    ensures SelectedLocation(user, db, local).None? <==> local.None? && (user.None? || db.None?)
  {
  }

  /** A failed or signed-out database query never hides the local preference. */
  lemma LocalFallback(table: seq<Location>, user: Option<string>, reply: Result<Option<PreferenceRow>, string>,
                      local: Option<Preference>)
    requires user.None? || reply.Failure?
    ensures SelectedLocation(user, DbData(table, user, reply), local) == local
  {
  }

  /** The local preference after the mount effect, and what remains in storage. */
  datatype Mounted = Mounted(slot: Option<string>, local: Option<Preference>)

  /**
   * The mount effect, with `JSON.parse` as `parse` (`None` when it throws):
   * a missing or empty stored text changes nothing, a readable one becomes
   * the local preference, an unreadable one is removed from storage.
   */
  function Mount(slot: Option<string>, local: Option<Preference>, parse: string -> Option<Preference>): (m: Mounted)
    ensures slot.None? || slot.value == "" ==> m == Mounted(slot, local)
    ensures slot.Some? && slot.value != "" && parse(slot.value).Some? ==> m == Mounted(slot, parse(slot.value))
    ensures slot.Some? && slot.value != "" && parse(slot.value).None? ==> m == Mounted(None, local)
  {
    if slot.Some? && slot.value != "" then
      match parse(slot.value)
      case Some(p) => Mounted(slot, Some(p))
      case None => Mounted(None, local)
    else Mounted(slot, local)
  }

  /**
   * Saving and then mounting again restores the saved preference, provided
   * `JSON.parse` reads back what `JSON.stringify` wrote.
   */
  lemma SaveThenMount(loc: Location, local: Option<Preference>,
                      stringify: Preference -> string, parse: string -> Option<Preference>)
    requires stringify(PreferenceOf(loc)) != ""
    requires parse(stringify(PreferenceOf(loc))) == Some(PreferenceOf(loc))
    ensures Mount(Some(stringify(PreferenceOf(loc))), local, parse) == Mounted(Some(stringify(PreferenceOf(loc))), Some(PreferenceOf(loc)))
  {
  }

  /** After clearing, mounting again finds nothing and keeps the local preference empty. */
  lemma ClearThenMount(parse: string -> Option<Preference>)
    ensures Mount(None, None, parse) == Mounted(None, None)
  {
  }

  /**
   * Clearing does not clear a signed-in user's database preference: the
   * refetch after `clearLocation` reads the unchanged row, and the shown
   * preference is that row's, non-null exactly when the row's city names a
   * catalogue entry. Signed out, clearing always leaves nothing shown.
   */
  lemma ClearKeepsDbPreference(table: seq<Location>, u: string, row: Option<PreferenceRow>, db: Option<Preference>)
    ensures SelectedLocation(Some(u), DbData(table, Some(u), Success(row)), None) == PreferenceFromRow(table, row)
    ensures SelectedLocation(Some(u), DbData(table, Some(u), Success(row)), None).Some? <==>
      row.Some? && row.value.selectedCity.Some? && row.value.selectedCity.value != "" &&
      exists i :: 0 <= i < |table| && Lower(table[i].city) == Lower(row.value.selectedCity.value)
    ensures SelectedLocation(None, db, None) == None
  {
    PreferenceFromRowSpec(table, row);
  }

  class LocationPreferencesHook {
    /** The value under `StorageKey` in local storage. */
    var storage: Option<string>
    var localLocation: Option<Preference>

    /** The hook's first render: the storage is what the browser holds, the local preference null. */
    constructor (stored: Option<string>)
      ensures storage == stored && localLocation == None
    {
      storage := stored;
      localLocation := None;
    }

    /** The mount effect on the hook's state. */
    method Load(parse: string -> Option<Preference>)
      modifies this
      ensures Mounted(storage, localLocation) == Mount(old(storage), old(localLocation), parse)
    {
      if storage.Some? && storage.value != "" {
        var parsed := parse(storage.value);
        if parsed.Some? {
          localLocation := parsed;
        } else {
          storage := None;
        }
      }
    }

    /**
     * `setLocation(location)`: the local preference and the stored text
     * always become the location's; the database upsert, whose reply is
     * `upsertReply`, only runs for a signed-in user and only its error is reported.
     */
    method SetLocation(user: Option<string>, location: Location, stringify: Preference -> string,
                       upsertReply: Result<(), string>)
      returns (outcome: Result<(), string>)
      modifies this
      ensures localLocation == Some(PreferenceOf(location))
      ensures storage == Some(stringify(PreferenceOf(location)))
      ensures user.None? ==> outcome.Success?
      ensures user.Some? ==> outcome == upsertReply
    {
      var pref := PreferenceOf(location);
      storage := Some(stringify(pref));
      localLocation := Some(pref);
      if user.Some? {
        outcome := upsertReply;
      } else {
        outcome := Success(());
      }
    }

    /**
     * `clearLocation()`: the stored text and the local preference are
     * removed. For a signed-in user the update that nulls the row's columns
     * is built but never awaited, so it does not reach the database; the
     * preference query is invalidated (`refetch`) and is read again from the
     * row as it was. What is shown afterwards is whatever that query holds.
     */
    method ClearLocation(user: Option<string>) returns (refetch: bool)
      modifies this
      ensures storage == None && localLocation == None
      ensures refetch <==> user.Some?
      ensures forall db :: Selected(user, db) == (if user.Some? then db else None)
    {
      storage := None;
      localLocation := None;
      refetch := user.Some?;
    }

    /** `selectedLocation` for the current local preference. */
    function Selected(user: Option<string>, db: Option<Preference>): Option<Preference>
      reads this
    {
      SelectedLocation(user, db, localLocation)
    }
  }
}
