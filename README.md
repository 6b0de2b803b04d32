# park-spot-finder in Dafny

This project models the deterministic core of park-spot-finder, a React client
for finding, booking and listing parking spots. It covers:

- the city catalogue search and lookup;
- the map view's radius filter, availability tiers, markers and radius ring;
- the dashboard's simulated map;
- the owner analytics aggregation and the earnings dashboard built on it;
- the active-booking countdown;
- the onboarding pager;
- amenity toggling;
- the add-spot form and the add-spot hook;
- the in-memory booking store of the app context;
- booking confirmation, spot details and booking history;
- the local list upkeep of the "my spots" hook;
- the bookings hook's active booking and booking codes;
- the location-preference hook.

Every awaited backend call (a query, insert, update, delete or storage
upload) is a parameter of the operation that makes it. It is either a reply
(`Result`) or a function that answers for the backend. The one call the
source never awaits, the update in `clearLocation`, sends nothing and is
modelled as having no effect. Clocks (`Date.now()`), random tags,
`JSON.parse`/`JSON.stringify`, `parseFloat`/`parseInt`, `Number.toString` and
distance computation are parameters too.

Modules follow the source files:

- `Locations`: src/data/indianLocations.ts.
- `MapView`, `MapDashboard`: the map view and the dashboard page.
- `SpotAnalytics`, `EarningsDashboard`: the `useSpotAnalytics` hook and the earnings page.
- `ActiveBooking`, `Onboarding`, `SpotDetails`, `BookingConfirmation`, `BookingHistory`, `AddSpot`: the pages of those names.
- `AmenityFilter`: the amenity filter component.
- `AppContext`: the app context provider.
- `MySpots`, `Bookings`, `AddParkingSpot`, `LocationPreferences`: the hooks of those names.
- `Lists`, `Text`, `Maybe`: the JavaScript array and string operations the
  source uses. These are `filter`, `slice`, `find`, `trim`, ASCII
  `toLowerCase`/`toUpperCase`, `includes`, `padStart`, `toString(radix)` and
  `split(sep).pop()`.

State that the source changes in place is modelled as classes:

- the context state: `AppContext.AppState`;
- the countdown: `ActiveBooking.Countdown`;
- the pager: `Onboarding.Pager`;
- the duration picker: `SpotDetails.DurationPicker`;
- the confirmation page: `BookingConfirmation.ConfirmationPage`;
- the dashboard marker: `MapDashboard.DashboardPage`;
- the add-spot form: `AddSpot.AddSpotForm`;
- the hooks' state cells, one class per hook.

Pure derivations are functions. Each one has lemmas that state what its
result means.

The owner analytics are modelled twice. `SpotAnalytics.Aggregate` is the
single `forEach` pass with counters, per-spot records and a day map, as
methods with loop invariants. `SpotAnalytics.AnalyticsOf` is a
reference definition over whole lists. The pass is proved equal to it, and
the meaning lemmas are proved about that definition.

## Model

| member | source | states |
|---|---|---|
| Locations.SearchBlankQuery | src/data/indianLocations.ts:116-117 | over any catalogue, a blank or white-space-only query returns exactly its first ten entries (all of a smaller one) |
| Locations.SearchNonBlankQuery | src/data/indianLocations.ts:119-123 | over any catalogue, a non-blank query returns the first min(matches, 15) matching entries in catalogue order, each of whose lower-cased city or state contains the lower-cased untrimmed query |
| Locations.SearchSubsequence | src/data/indianLocations.ts:116-124 | every result is an order-preserving subsequence of the catalogue |
| Locations.SearchComplete | src/data/indianLocations.ts:119-123 | with fewer than 15 matches, a catalogue entry is returned iff it matches |
| Locations.FindCitySpec | src/data/indianLocations.ts:126-128 | the lookup is undefined iff no entry's lower-cased city equals the lower-cased argument, and otherwise is the first such entry |
| Locations.FindCityMember | src/data/indianLocations.ts:126-128 | every catalogue entry is found by its own city name |
| Text.TrimEmptyIffBlank | src/data/indianLocations.ts:117 | `!query.trim()` holds exactly for white-space-only strings |
| MapView.SearchRadius | src/components/MapView.tsx:18 | the radius is 1 when not supplied, else the supplied one |
| MapView.SpotsInRangeSpec | src/components/MapView.tsx:45-56 | without a location all spots unchanged; with one an order-preserving subsequence holding a spot iff its distance is at most the radius (boundary included) |
| MapView.SpotsInRangeBounded | src/components/MapView.tsx:47-55 | every kept spot is within the radius; a negative radius keeps none |
| MapView.TierByCrossMultiplication | src/components/MapView.tsx:59-64 | green iff 2·available > total, yellow iff not that and 5·available > total, red iff 5·available ≤ total |
| MapView.TierBoundaries | src/components/MapView.tsx:59-64 | a ratio of exactly 0.5 is the limited tier and yellow, exactly 0.2 or 0 the scarce tier and red |
| MapView.FullMarker | src/components/MapView.tsx:215-240 | the marker reads FULL iff no space is free, else the price; a full spot's dot is red |
| MapView.RadiusRing | src/components/MapView.tsx:154-168 | the ring has 65 points: point i of the first 64 is the i-th point at the radius in kilometres (miles × 1.60934), and the last equals the first |
| MapDashboard.AvailabilityClassTiers | src/pages/MapDashboard.tsx:21-26 | bg-success iff 2·available > total, bg-warning iff 0.2 < ratio ≤ 0.5, bg-destructive otherwise |
| MapDashboard.DashboardAgreesWithMapView | src/pages/MapDashboard.tsx:21-26 | for every positive capacity the dashboard class and the map view colour name the same tier: bg-success iff green, bg-warning iff yellow, bg-destructive iff red |
| MapDashboard.SelectedCardSpec | src/pages/MapDashboard.tsx:168-177 | the card holds exactly the spots whose id is the selected id, in list order |
| MapDashboard.DashboardPage.constructor | src/pages/MapDashboard.tsx:14 | no marker is selected at first |
| MapDashboard.DashboardPage.ClickMarker | src/pages/MapDashboard.tsx:91-94 | a click sets the marker id and the context's selected spot to the clicked spot |
| MapDashboard.MockCardIsClickedSpot | src/pages/MapDashboard.tsx:175-177 | on the mock spots, clicking a marker puts exactly that one spot on the card |
| SpotAnalytics.InsertPermutes | src/hooks/useSpotAnalytics.ts:181 | inserting a record into the sorted list adds exactly that record |
| SpotAnalytics.InsertSorted | src/hooks/useSpotAnalytics.ts:181 | inserting into a list sorted by earnings keeps it sorted |
| SpotAnalytics.SortByEarningsSpec | src/hooks/useSpotAnalytics.ts:181 | the per-spot list is a permutation of its input, sorted non-increasing by earnings |
| SpotAnalytics.SumStep | src/hooks/useSpotAnalytics.ts:146-168 | one more booking adds its price (if it earns and matches) to a sum and one to a count |
| SpotAnalytics.StatusStep | src/hooks/useSpotAnalytics.ts:141-143 | one more booking adds one to the counter of its status |
| SpotAnalytics.CountStep | src/hooks/useSpotAnalytics.ts:141-143 | one booking moves the active, completed and cancelled counters to their values over the longer prefix |
| SpotAnalytics.EarnStep | src/hooks/useSpotAnalytics.ts:146-162 | one booking moves the total and the three window totals to their sums over the longer prefix |
| SpotAnalytics.SpotStep | src/hooks/useSpotAnalytics.ts:165-168 | one booking moves every per-spot record to its spot's totals over the longer prefix |
| SpotAnalytics.DayStep | src/hooks/useSpotAnalytics.ts:171-176 | after one booking the day map holds each present day's totals over the longer prefix, and every absent day has none |
| SpotAnalytics.UpsertShape | src/hooks/useSpotAnalytics.ts:126-133 | writing one spot key keeps ids distinct and totals zero and adds exactly that key |
| SpotAnalytics.InitStatsShape | src/hooks/useSpotAnalytics.ts:126-133 | the initial records have distinct ids, zero totals and one record per owned spot id |
| SpotAnalytics.InitialStats | src/hooks/useSpotAnalytics.ts:122-133 | the initialisation loop yields the reference definition's initial records |
| SpotAnalytics.AddToSpot | src/hooks/useSpotAnalytics.ts:165-168 | exactly the record of the booking's spot gains one booking and its price; a booking of an unknown spot changes nothing |
| SpotAnalytics.Tally | src/hooks/useSpotAnalytics.ts:114-178 | after the pass, each counter and total equals its whole-list definition, each record holds its spot's earning totals, and the day map holds each day's totals |
| SpotAnalytics.Chart | src/hooks/useSpotAnalytics.ts:184-188 | the chart loop yields the 30-day series, the day-map entry or zeros for each day |
| SpotAnalytics.Aggregate | src/hooks/useSpotAnalytics.ts:68-215 | the whole pass computes exactly `AnalyticsOf` of the spots and bookings |
| SpotAnalytics.SumPricesSnoc | src/hooks/useSpotAnalytics.ts:147 | a price sum grows by the appended booking's price |
| SpotAnalytics.TotalsAreOverNotCancelled | src/hooks/useSpotAnalytics.ts:146-147 | total earnings are the price sum of the non-cancelled bookings, and their count is their number |
| SpotAnalytics.StatusesPartition | src/hooks/useSpotAnalytics.ts:141-143 | active + completed + cancelled + other-status counts make up all bookings; earning + cancelled make up all |
| SpotAnalytics.CountersSpec | src/hooks/useSpotAnalytics.ts:141-147 | in the analytics the three status counters plus the unknown-status bookings make up all bookings, totalBookings + cancelled is the booking count, and totalEarnings sums the non-cancelled prices |
| SpotAnalytics.NoSpotsSpec | src/hooks/useSpotAnalytics.ts:68-84 | an owner without spots gets every counter and total zero and every list empty |
| SpotAnalytics.ChartSpec | src/hooks/useSpotAnalytics.ts:184-188 | the chart has 30 consecutive days ending today, each the earning totals of that day |
| SpotAnalytics.AverageSpec | src/hooks/useSpotAnalytics.ts:211 | average × earning count is the total earnings; with no earning booking the average is 0 |
| SpotAnalytics.CancelledSums | src/hooks/useSpotAnalytics.ts:146 | a cancelled booking adds nothing to any sum or count |
| SpotAnalytics.CancelledEarnsNothing | src/hooks/useSpotAnalytics.ts:146 | with one more cancelled booking every earnings figure, the booking count, the per-spot list and the chart are unchanged, and only the cancelled counter grows |
| SpotAnalytics.ForeignBookingIgnored | src/hooks/useSpotAnalytics.ts:165-168 | a booking for a spot the owner does not have changes no per-spot record |
| SpotAnalytics.TotalsShape | src/hooks/useSpotAnalytics.ts:126-168 | before sorting the records have distinct ids, one per owned spot id, each holding its spot's earning totals |
| SpotAnalytics.InsertDistinct | src/hooks/useSpotAnalytics.ts:181 | inserting a record with a new id keeps the ids distinct |
| SpotAnalytics.SortDistinct | src/hooks/useSpotAnalytics.ts:181 | sorting keeps the ids distinct |
| SpotAnalytics.SpotStatsSpec | src/hooks/useSpotAnalytics.ts:125-181 | the per-spot list is sorted by earnings, has one entry per owned spot id and no other, and each entry counts only the non-cancelled bookings of its spot |
| SpotAnalytics.RecentSpec | src/hooks/useSpotAnalytics.ts:191-198 | the recent list is the first min(10, n) bookings in fetched order, each with its booking's id, price, date, status and creation time, and the first owned spot with its spot id, or null when none has it |
| SpotAnalytics.AnalyticsHook.constructor | src/hooks/useSpotAnalytics.ts:48-49 | no analytics, loading |
| SpotAnalytics.AnalyticsHook.Fetch | src/hooks/useSpotAnalytics.ts:51-221 | signed out clears the analytics; a failed query keeps them; no spots gives the zero analytics; otherwise the aggregate; loading ends in every case |
| EarningsDashboard.GrowthSpec | src/pages/EarningsDashboard.tsx:52-54 | last × (1 + growth/100) = this; after a positive last month the growth is ≥ 0 iff this ≥ last, after a negative one iff this ≤ last; 0 iff the months are equal |
| EarningsDashboard.NoGrowthWithoutLastMonth | src/pages/EarningsDashboard.tsx:52-54 | without analytics or last-month earnings the growth is 0 and shown as up |
| EarningsDashboard.DisplayedGrowthSpec | src/pages/EarningsDashboard.tsx:132-138 | the up arrow and success colour are shown iff growth ≥ 0; the printed number is the absolute value, and with the arrow it gives back the growth |
| EarningsDashboard.HasSpotsIffOwner | src/pages/EarningsDashboard.tsx:56 | for computed analytics, spots are listed iff the owner has any |
| EarningsDashboard.RecentShownSpec | src/pages/EarningsDashboard.tsx:321-330 | the listed bookings are the first min(5, n) recent entries, so each shows its fetched booking's id, price, date and status, and a spot exactly when the owner has one with its spot id |
| EarningsDashboard.NoBookingsNote | src/pages/EarningsDashboard.tsx:315-319 | an owner with spots sees "No bookings yet" iff there are no bookings |
| EarningsDashboard.StatusClassSpec | src/pages/EarningsDashboard.tsx:334-340 | success iff completed, primary iff active, destructive for every other status |
| ActiveBooking.TickCases | src/pages/ActiveBooking.tsx:16-25 | the three borrowing branches of the tick, and the tick is the identity iff the clock reads zero |
| ActiveBooking.TickCountsDown | src/pages/ActiveBooking.tsx:16-25 | from an in-range non-zero reading a tick takes exactly one second off and stays in range |
| ActiveBooking.FromTotalSeconds | src/pages/ActiveBooking.tsx:11-25 | an in-range reading is the clock reading of its number of seconds |
| ActiveBooking.TickIsOneSecondLess | src/pages/ActiveBooking.tsx:16-25 | a tick equals the clock reading of one second less |
| ActiveBooking.CountdownEnds | src/pages/ActiveBooking.tsx:14-29 | after as many ticks as seconds left (or more) the clock reads 00:00:00 |
| ActiveBooking.FormatTimeSpec | src/pages/ActiveBooking.tsx:51 | at least two decimal digits, exactly two below 100, a leading '0' for one digit, reading back as the number |
| ActiveBooking.ProgressSpec | src/pages/ActiveBooking.tsx:52 | progress is the remaining share of 7200 s in percent: ≥ 0, 0 iff no time left, ≤ 100 iff at most two hours left, falling 1/72 per tick |
| ActiveBooking.InitialTimeSpec | src/pages/ActiveBooking.tsx:11 | the countdown starts at 6330 s, in range and inside the session |
| ActiveBooking.Countdown.constructor | src/pages/ActiveBooking.tsx:11 | the state starts at 1:45:30 |
| ActiveBooking.Countdown.Step | src/pages/ActiveBooking.tsx:15-26 | one interval callback applies the tick, taking one second off an in-range non-zero state |
| ActiveBooking.EndSession | src/pages/ActiveBooking.tsx:46-49 | ending the session leaves no active booking |
| Onboarding.ButtonsSpec | src/pages/OnboardingScreen.tsx:140-147 | Back is shown iff not on the first slide; the label is "Get Started" iff on the last |
| Onboarding.Pager.constructor | src/pages/OnboardingScreen.tsx:32 | the pager starts on slide 0 |
| Onboarding.Pager.Next | src/pages/OnboardingScreen.tsx:34-40 | the index stays in range; before the last slide it grows by one, on the last it stays and onboarding is marked seen |
| Onboarding.Pager.Prev | src/pages/OnboardingScreen.tsx:42-46 | the index stays in range; it falls by one, except on slide 0 |
| Onboarding.Pager.GoTo | src/pages/OnboardingScreen.tsx:127-130 | a dot click selects that slide, in range |
| Onboarding.Pager.GetStarted | src/pages/OnboardingScreen.tsx:48-51 | onboarding is marked seen |
| Onboarding.Pager.Skip | src/pages/OnboardingScreen.tsx:53-56 | from any slide onboarding is marked seen |
| AmenityFilter.ToggleSpec | src/components/AmenityFilter.tsx:23-29 | a selected id is removed everywhere with the others kept in order; an unselected one is appended |
| AmenityFilter.ToggleFlips | src/components/AmenityFilter.tsx:23-29 | toggling flips that id's membership and no other's |
| AmenityFilter.ToggleKeepsNoDup | src/components/AmenityFilter.tsx:23-29 | toggling keeps a duplicate-free selection duplicate-free |
| AmenityFilter.FilterOutCounts | src/components/AmenityFilter.tsx:25 | removing an id zeroes its count and keeps every other count |
| AmenityFilter.NoDupCount | src/components/AmenityFilter.tsx:23-29 | in a duplicate-free selection each id occurs at most once |
| AmenityFilter.ToggleTwice | src/components/AmenityFilter.tsx:23-29 | toggling twice restores an absent id's list, moves a present id to the end, and restores the multiset of a duplicate-free list |
| AmenityFilter.ToggleTwiceLast | src/components/AmenityFilter.tsx:23-29 | on a duplicate-free list whose last id is toggled, toggling twice restores it |
| AmenityFilter.ToggleTwiceReorders | src/components/AmenityFilter.tsx:23-29 | a present id that is not last comes back at the end, not in its place |
| AmenityFilter.ClearAll | src/components/AmenityFilter.tsx:31-33 | after clearing nothing is selected |
| AmenityFilter.ClearAllSpec | src/components/AmenityFilter.tsx:94-99 | Clear All is enabled iff something is selected; after it, it is disabled and Apply shows 0 |
| AddSpot.BuildSpotSpec | src/pages/AddSpot.tsx:116-137 | a spot is built iff the required fields and coordinates are filled (missing fields reported first); name, address and city are copied, price, total and coordinates are the parsed form text, an empty available takes total's value and an empty description becomes none |
| AddSpot.SuggestionResolves | src/pages/AddSpot.tsx:65-102 | every city suggestion is found again by the lookup when selected |
| AddSpot.AddSpotForm.constructor | src/pages/AddSpot.tsx:41-57 | the form starts empty, with no image, no search text, suggestions closed and no amenities |
| AddSpot.AddSpotForm.SelectImage | src/pages/AddSpot.tsx:67-81 | a file of at most 5·1024·1024 bytes becomes the image; a larger one or none leaves it unchanged |
| AddSpot.AddSpotForm.RemoveImage | src/pages/AddSpot.tsx:83-89 | the image is removed |
| AddSpot.AddSpotForm.TypeCity | src/pages/AddSpot.tsx:243-245 | typing sets the search text and opens the suggestions |
| AddSpot.AddSpotForm.FocusCity | src/pages/AddSpot.tsx:247 | focusing opens the suggestions |
| AddSpot.AddSpotForm.CitySelect | src/pages/AddSpot.tsx:91-103 | a found city fills city, lat, lng and the search text from the lookup; an unknown one changes neither; suggestions close either way |
| AddSpot.AddSpotForm.ApplyLocation | src/pages/AddSpot.tsx:93-102 | the effect of a looked-up location or of `undefined` on the form |
| AddSpot.AddSpotForm.ToggleAmenity | src/pages/AddSpot.tsx:105-111 | the selection follows the same toggle rule as the amenity filter |
| AddSpot.AddSpotForm.Submit | src/pages/AddSpot.tsx:113-144 | a refused form adds nothing and leaves the hook alone; an accepted one is added with the chosen image |
| AddSpot.CitySelectFillsCoordinates | src/pages/AddSpot.tsx:91-124 | after picking a city, a form with the other required fields passes both checks |
| AppContext.MockSpotsWellFormed | src/contexts/AppContext.tsx:56-113 | the mock spots have distinct ids and 0 ≤ available ≤ total with total > 0 |
| AppContext.AppState.constructor | src/contexts/AppContext.tsx:118-141 | no user, signed out, onboarding unseen, no selected spot, no bookings, no active booking, and the mock spots |
| AppContext.AppState.AddBooking | src/contexts/AppContext.tsx:125-130 | the booking goes in front of the unchanged old list, which grows by one; it becomes active iff its status is active, otherwise the active booking is unchanged |
| AppContext.AppState.SetActiveBooking | src/contexts/AppContext.tsx:123 | the active booking becomes the given one |
| AppContext.AppState.SetSelectedSpot | src/contexts/AppContext.tsx:121 | the selected spot becomes the given one |
| AppContext.AppState.SetHasSeenOnboarding | src/contexts/AppContext.tsx:120 | the onboarding flag becomes the given value |
| BookingConfirmation.PriceSpec | src/pages/BookingConfirmation.tsx:16-19 | the charge is twice the hourly price plus 0.50, or 0 plus the fee without a spot |
| BookingConfirmation.ConfirmEnabledSpec | src/pages/BookingConfirmation.tsx:12-223 | Confirm is disabled while processing or with an empty vehicle number; a fresh page is enabled iff the user's first vehicle has a number |
| BookingConfirmation.NewBookingSpec | src/pages/BookingConfirmation.tsx:29-40 | the new booking is active, two hours, for the selected spot and the entered vehicle, at the final total, with a code starting "PK" and an id that reads back as the timestamp |
| BookingConfirmation.ConfirmationPage.constructor | src/pages/BookingConfirmation.tsx:12-14 | the field holds the user's first vehicle number or '', not processing, not confirmed |
| BookingConfirmation.ConfirmationPage.SetVehicleNumber | src/pages/BookingConfirmation.tsx:148-156 | the field takes the typed or clicked number |
| BookingConfirmation.ConfirmationPage.Confirm | src/pages/BookingConfirmation.tsx:21-45 | without a spot nothing changes; otherwise the new booking is both the newest and the active booking and the page is confirmed |
| SpotDetails.TotalPriceSpec | src/pages/SpotDetails.tsx:21 | one hour costs the hourly price, the price is additive in hours and monotone for a non-negative price |
| SpotDetails.HourLabelSpec | src/pages/SpotDetails.tsx:137 | "Hour" iff the duration is 1, else "Hours" |
| SpotDetails.DurationPicker.constructor | src/pages/SpotDetails.tsx:11-20 | the selection starts at 2, a menu entry |
| SpotDetails.DurationPicker.Select | src/pages/SpotDetails.tsx:127-130 | a click selects that menu value, so the selection stays in the menu |
| BookingHistory.AllBookingsSpec | src/pages/BookingHistory.tsx:55-72 | the list is the non-active context bookings in order (none missing, none active) followed by the four samples, so it is never empty |
| BookingHistory.BadgeSpec | src/pages/BookingHistory.tsx:105-114 | success iff completed, destructive otherwise |
| BookingHistory.TimeTextSpec | src/pages/BookingHistory.tsx:127 | a sample shows its own time, a context booking "start - end" |
| MySpots.RemoveByIdSpec | src/hooks/useMySpots.ts:55 | no spot with the id remains, every other spot is kept in order, removing twice is removing once |
| MySpots.RemoveAbsent | src/hooks/useMySpots.ts:55 | removing an id no spot has changes nothing |
| MySpots.ReplaceByIdSpec | src/hooks/useMySpots.ts:79 | the length and the spots with other ids are kept; each place with the id gets the returned row; replacing twice is replacing once, and an absent id changes nothing |
| MySpots.MySpotsHook.constructor | src/hooks/useMySpots.ts:11-12 | no spots, loading |
| MySpots.MySpotsHook.Fetch | src/hooks/useMySpots.ts:14-37 | signed out empties the list; a reply replaces it; a failure keeps it; loading ends |
| MySpots.MySpotsHook.Delete | src/hooks/useMySpots.ts:43-63 | true iff signed in and the delete succeeded, and then the id is removed; otherwise the list is unchanged |
| MySpots.MySpotsHook.Update | src/hooks/useMySpots.ts:65-87 | the row iff signed in and the update succeeded, and then it replaces the id's spots; otherwise null and unchanged |
| Bookings.ActiveBookingSpec | src/hooks/useBookings.ts:62 | the active booking is the first fetched active one, and undefined iff none is active |
| Bookings.BookingCodeSpec | src/hooks/useBookings.ts:76 | "PK" then upper-case base-36 digits only, which read back as the timestamp, so distinct timestamps give distinct codes |
| Bookings.CreateBookingSpec | src/hooks/useBookings.ts:64-91 | without a user the mutation fails with "Not authenticated" before any insert; with one the inserted row carries the request's spot, date, start and end times, duration, price and vehicle, for that user, active, with the timestamp's code |
| Text.FromToRadix | src/hooks/useBookings.ts:76 | reading back `n.toString(b)` in base b gives n |
| Text.UpperRadixInjective | src/hooks/useBookings.ts:76 | distinct numbers have distinct upper-cased base-b strings |
| Text.AfterLast | src/hooks/useAddParkingSpot.ts:26 | `split(sep).pop()` has no separator, ends the string, follows the last separator, and is the whole string without one |
| AddParkingSpot.UploadPathSpec | src/hooks/useAddParkingSpot.ts:26-27 | the extension ends the file name and has no dot (the whole name without one); the path starts with the user's folder and ends in that extension |
| AddParkingSpot.InsertRowSpec | src/hooks/useAddParkingSpot.ts:60-77 | the row is approved, rated 4.0, owned by the user, with a null description iff none or an empty one was given, and the form's fields and image URL passed through |
| AddParkingSpot.AddResultSpec | src/hooks/useAddParkingSpot.ts:45-95 | signed out nothing is added; no image gives a null URL; a failed upload adds nothing; an uploaded image's URL is stored; an added row belongs to the user |
| AddParkingSpot.AddSpotHook.constructor | src/hooks/useAddParkingSpot.ts:21 | not loading |
| AddParkingSpot.AddSpotHook.Add | src/hooks/useAddParkingSpot.ts:45-95 | returns exactly `AddResult`; signed out loading is untouched, otherwise it is false afterwards |
| LocationPreferences.PreferenceOf | src/hooks/useLocationPreferences.ts:67-72 | the preference carries the location's city, state, lat and lng |
| LocationPreferences.PreferenceFromRowSpec | src/hooks/useLocationPreferences.ts:47-58 | a row yields a preference iff its city is set, non-empty and names a catalogue entry, and it then carries the first such entry's fields |
| LocationPreferences.PreferenceIgnoresState | src/hooks/useLocationPreferences.ts:47-58 | the stored state column does not affect the result |
| LocationPreferences.SelectedLocationSpec | src/hooks/useLocationPreferences.ts:108 | signed out the local preference; signed in the database one if present, else the local one |
| LocationPreferences.LocalFallback | src/hooks/useLocationPreferences.ts:34-61 | over any catalogue, signed out or after a failed first fetch the local preference is shown |
| LocationPreferences.Mount | src/hooks/useLocationPreferences.ts:22-31 | missing or empty stored text changes nothing, readable text becomes the local preference, unreadable text is removed and the preference kept |
| LocationPreferences.SaveThenMount | src/hooks/useLocationPreferences.ts:22-74 | after saving, a later mount restores the saved preference when `JSON.parse` reads back what `JSON.stringify` wrote |
| LocationPreferences.ClearThenMount | src/hooks/useLocationPreferences.ts:22-97 | after clearing, a later mount finds nothing and the local preference stays null |
| LocationPreferences.LocationPreferencesHook.constructor | src/hooks/useLocationPreferences.ts:19 | the local preference starts null |
| LocationPreferences.LocationPreferencesHook.Load | src/hooks/useLocationPreferences.ts:22-31 | the mount effect on the hook's storage and local preference |
| LocationPreferences.LocationPreferencesHook.SetLocation | src/hooks/useLocationPreferences.ts:64-89 | the stored text and local preference always become the location's; only a signed-in user's upsert error is reported |
| LocationPreferences.LocationPreferencesHook.ClearLocation | src/hooks/useLocationPreferences.ts:95-105 | the stored text and the local preference are removed; the preference query is invalidated iff signed in; afterwards a signed-in user is shown whatever the query holds, a signed-out one nothing |
| LocationPreferences.ClearKeepsDbPreference | src/hooks/useLocationPreferences.ts:95-108 | over any catalogue, the un-awaited update leaves the row, so after clearing a signed-in user is still shown the row's preference, non-null iff its city names a catalogue entry; signed out, nothing is shown |

## Left out

- Haversine distance and the ring's trigonometry are floating point. Distance is a parameter returning a non-negative number, and the ring's points come from a parameter.
- MapView.AvailabilityTier, MapDashboard.AvailabilityClass, and every member over them (MapView.AvailabilityColor, MapView.TierByCrossMultiplication, MapView.TierBoundaries, MapView.FullMarker, MapDashboard.AvailabilityClassTiers, MapDashboard.DashboardAgreesWithMapView): these require `total > 0`. JavaScript's `available / 0` (Infinity, hence green; NaN, hence red) is not modelled.
- Mapbox map, marker and DOM construction, `flyTo`, the token prompt, animations and all layout are not modelled.
- Backend calls are replies or answering functions passed in:
  - Supabase queries, inserts, updates, deletes and storage uploads;
  - react-query caching and invalidation.
- AddParkingSpot.AddResult: the insert is a yes/no answer, and a successful add returns the row the hook built, not the database's copy.
- Timers are not modelled beyond the state change of one callback. This covers the one-second interval and the simulated two-second payment delay.
- Navigation and toasts are not modelled.
- `Math.random().toString(36).substr(2, 6)` in the confirmation code is a `randomTag` parameter.
- Calendar arithmetic is not modelled. Dates are integer day numbers. This month, last month and this week are inclusive day windows given as parameters, and the chart covers the 30 days ending at `today`.
- `Number(total_price) || 0`: prices are exact reals, so NaN prices are not modelled.
- `Object.values` order of the per-spot map is not modelled for integer-like ids, which JavaScript lists first. The model keeps insertion order.
- `localStorage` and JSON are modelled as the stored text plus `parse`/`stringify` parameters. Parsed JSON that is not a preference object is not distinguished from a preference.
- `parseFloat`, `parseInt(_, 10)`, `Number.toString` for coordinates, `toFixed` and `toLocaleString` are parameters or left out.
- SpotAnalytics.Status: a status text other than the three known ones is kept as `Other(name)`; the type does not exclude `Other("active")` and the like, which the source would count as the named statuses, so the model assumes the column's text is parsed into the named cases first.
- Case folding is ASCII only. White space for `trim` follows the ECMAScript set.
- `updateBookingStatus` and the fetch half of `useBookings` are remote calls only, and are not modelled.
- The map view filters spots by radius and does not sort them by distance.
- LocationPreferences.LocationPreferencesHook.ClearLocation: the update that nulls a signed-in user's `selected_city` and `selected_state` is built but neither awaited nor subscribed to, so it is modelled as never reaching the database. The invalidation is a returned flag, and the refetch it triggers is the ordinary preference query over the unchanged row (LocationPreferences.ClearKeepsDbPreference).
- Toggling a selected amenity twice does not restore the list when that amenity is not the last one. It moves to the end (AmenityFilter.ToggleTwiceReorders). Toggling twice restores the list for an absent id, and for the last id of a duplicate-free list. For any duplicate-free list it restores the set of selections.
