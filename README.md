# Ride booking and care-provider search, modelled in Dafny

This project models the logic of three parts of an accessibility-services web site:

- **The ride map** (`components/ui/map-component.tsx`). It holds a selection
  mode that says which endpoint (pickup or destination) the next pick fills
  in. Toggle buttons change the mode. Map clicks and the search box consume
  it. A routing step redraws the endpoint markers and the route whenever an
  endpoint changes. The map also computes a fare from the route's distance,
  its duration and the hour of day.
- **The cab booking page** (`app/cabs/page.tsx`). It holds the booking record.
  Handlers edit one text field, one accessibility flag, or the endpoint that
  is pending a pick. The page decides which endpoints it hands to the map. On
  submit it checks required fields, the email and an Indian phone number, and
  it shows a fare estimate computed by a second formula of its own.
- **The care-provider listing** (`app/care/page.tsx`). It builds provider
  cards from caregiver records and narrows them by keyword, location and
  ticked specializations.

Modules:

- `RideFare`: the map's fare rule, as a function over exact reals, with the
  hour as a parameter.
- `RideMap`: the map as a class `MapView`, holding the mode, the search box
  text, the marker table and the routing control. The click, search, toggle
  and route-conversion decisions are pure functions. The class methods are
  proved against them.
- `CabBooking`: the booking record and its pure transitions, the
  validations and the page's fare, plus a class `BookingPage` whose handlers
  are proved against those functions.
- `CareSearch`: the provider mapping and the search, plus a class `CarePage`.
  Its invariant `Synced` says that the listing shown is the search over the
  current query, location and specializations.
- Helpers: `Numbers` (`Math.max`, `Math.ceil`, `Math.round`), `Text`
  (`toLowerCase`, `includes`, the regular-expression classes `\s` and `\d`),
  `Lists` (`filter`, subsequences), `Geo` (shared location values),
  `Wrappers` (`Option`).

Answers from the geocoding service, the routing service and the browser's
geolocation are parameters. So is the clock's hour. A failed request is
`None`.

Some behaviours of the code are modelled as written:

- A latitude of exactly 0 means "unset" when the page passes endpoints to
  the map, so a point on the equator is never drawn
  (`CabBooking.PickedLocationReachesMap`).
- A marker or route control removed from the map stays in its slot. It is
  flagged as off the map (`onMap`), because the code never clears those
  references.
- An extra charge is listed only when it is positive, although it is always
  added to the total.

Three behaviours of the map's lookups, as the code has them:

- A successful search keeps the selection mode
  (components/ui/map-component.tsx:223-225). Only a pick by click resets it
  (line 258).
- Geocoding and routing answers carry no request number, and a stale answer
  is never cancelled.
- An empty search result and a failed request both end with no update.

A change of the selection mode tears the map down and builds a new one
(components/ui/map-component.tsx:275-283). The endpoint effect depends on
the endpoints alone (line 425). The new map therefore shows no endpoint
marker and no route until an endpoint changes again. A pick by click resets
the mode in the same update that hands the point to the page, so the picked
point is not drawn (`RideMap.RebuiltMapShowsNoEndpoints`).

## Model

| member | source | states |
|---|---|---|
| `Numbers.Ceil` | components/ui/map-component.tsx:324 | `Math.ceil` gives the integer c with x ≤ c < x + 1 |
| `Numbers.RoundHalfUp` | components/ui/map-component.tsx:406 | `Math.round` gives the integer n with x − ½ < n ≤ x + ½ |
| `Numbers.CeilMonotone` | components/ui/map-component.tsx:324 | ceiling never decreases as its argument grows |
| `RideFare.RoundUpToTen` | components/ui/map-component.tsx:323-324 | result is a multiple of ten, at least x and less than x + 10 |
| `RideFare.CalculateFare` | components/ui/map-component.tsx:286-334 | total fare is ≥ 100, divisible by 10, and within one step of ten above max(subtotal × hour factor, 100) |
| `RideFare.TotalFareIsLeast` | components/ui/map-component.tsx:317-324 | no multiple of ten at or above max(exact fare, 100) is below the total fare |
| `RideFare.FareComponents` | components/ui/map-component.tsx:297-299 | base fare is 50, distance fare is 12 per km and 0 for a negative distance, time fare is 2 per minute |
| `RideFare.NightChargeRule` | components/ui/map-component.tsx:301-306 | night charge is listed iff the hour is ≥ 22 or < 5 and the subtotal is positive; it equals a quarter of the subtotal |
| `RideFare.SurgeChargeRule` | components/ui/map-component.tsx:308-314 | surge charge is listed iff the hour is in 8–10 or 17–20 and the subtotal is positive; it equals a fifth of the subtotal |
| `RideFare.ChargesFollowTheClock` | components/ui/map-component.tsx:301-332 | for a non-negative duration, each charge is listed exactly in its hour window |
| `RideFare.AtMostOneCharge` | components/ui/map-component.tsx:303-332 | night and surge charges are never both listed |
| `RideFare.FareMonotone` | components/ui/map-component.tsx:297-324 | at a fixed hour, a ride that is longer or slower never has a lower total |
| `RideFare.EmptyRideAtNoon` | components/ui/map-component.tsx:286-334 | 0 km, 0 min at 12:00 gives 50/0/0, total 100, no extra charges |
| `RideFare.NightRideExample` | components/ui/map-component.tsx:286-334 | 10 km, 20 min at 23:00 gives a night charge of 52.5 and a total of 270 |
| `RideFare.PeakRideExample` | components/ui/map-component.tsx:286-334 | 10 km, 20 min at 09:00 gives a surge charge of 42 and a total of 260 |
| `RideMap.StartPosition` | components/ui/map-component.tsx:51-71 | start point is the device position, or (19.076, 72.8777) when geolocation is missing or fails |
| `RideMap.Toggle` | components/ui/map-component.tsx:162-172 | a button selects its endpoint iff that endpoint was not active; it clears the mode iff it was |
| `RideMap.ToggleTwice` | components/ui/map-component.tsx:162-172 | two presses of one button restore that button's mode and otherwise end with no mode (so from none, back to none) |
| `RideMap.OnMapClick` | components/ui/map-component.tsx:240-262 | lookup starts iff a mode is set; a location is delivered iff mode and answer are present, with the clicked coordinates and the display name; the mode then resets; a failed lookup changes nothing |
| `RideMap.OnSearchKey` | components/ui/map-component.tsx:206-231 | query is sent iff Enter is pressed with a mode set; the first hit is delivered iff one is sent back; the box clears iff a hit is delivered |
| `RideMap.OnePickPerClick` | components/ui/map-component.tsx:206-262 | after a click delivers a point, later clicks and searches do nothing until a button is pressed |
| `RideMap.ClearedMarkers` | components/ui/map-component.tsx:342-349 | same keys and positions; only the "current" marker can stay on the map |
| `RideMap.PlacedMarkers` | components/ui/map-component.tsx:367-382 | a marker is added on the map for each endpoint that is set, at its position; every other slot is as before |
| `RideMap.MarkersFollowEndpoints` | components/ui/map-component.tsx:342-382 | after an endpoint change, each endpoint marker shown is the new endpoint's (none when unset); the user's own marker is unchanged |
| `RideMap.RouteAfter` | components/ui/map-component.tsx:351-401 | the route on the map is live iff both endpoints are set, and it runs from pickup to destination |
| `RideMap.Detached` | components/ui/map-component.tsx:275-282 | removing the map keeps every marker object and position but leaves none on a map |
| `RideMap.DetachedRoute` | components/ui/map-component.tsx:275-282 | removing the map keeps the routing control and its waypoints but leaves it off the map |
| `RideMap.RebuiltMapShowsNoEndpoints` | components/ui/map-component.tsx:275-283 | after a teardown and a rebuild, only the user's own marker is shown: no endpoint marker and no route |
| `RideMap.RouteUpdate` | components/ui/map-component.tsx:403-415 | uses only the first route; distance × 1000 equals the metres; duration is the seconds/60 rounded half up (≥ 0 for a non-negative time); fare is the fare rule at that distance and duration |
| `RideMap.MapView.constructor` | components/ui/map-component.tsx:35-48 | no position, no map, no mode, empty markers and route |
| `RideMap.MapView.Locate` | components/ui/map-component.tsx:51-71 | stores the start position |
| `RideMap.MapView.InitializeMap` | components/ui/map-component.tsx:77-121 | builds the map only when a start position exists and no map does; the user's own marker is placed on it |
| `RideMap.MapView.PressButton` | components/ui/map-component.tsx:162-172 | with a map, mode becomes `Toggle(old mode, button)` and the map is torn down as `TearDown` says; without a map nothing changes |
| `RideMap.MapView.Click` | components/ui/map-component.tsx:240-262 | with a map, lookup, delivery and new mode are those of `OnMapClick`, and a delivery tears the map down; without a map nothing happens |
| `RideMap.MapView.TypeSearch` | components/ui/map-component.tsx:195-208 | typed text is stored only while the map exists and a mode is set (the box is disabled otherwise) |
| `RideMap.MapView.SearchKey` | components/ui/map-component.tsx:206-231 | with a map, query, delivery and new box text are those of `OnSearchKey` over the typed text; without a map nothing happens; the mode is untouched |
| `RideMap.MapView.TearDown` | components/ui/map-component.tsx:275-282 | with a map: the map is gone, every marker and the route are off the map, the search box is empty; without one nothing changes |
| `RideMap.MapView.SyncEndpoints` | components/ui/map-component.tsx:337-401 | before the map exists nothing changes; otherwise the loop over the marker table removes every non-current marker, the old route is removed, both are then replaced as `ClearedMarkers`/`RouteAfter` say, and a route is requested iff both endpoints are set |
| `CabBooking.WithField` | app/cabs/page.tsx:56-64 | the named field takes the value; every other field, the flags and the coordinates are unchanged |
| `CabBooking.WithFieldOverwrites` | app/cabs/page.tsx:56-64 | writing a field twice keeps only the second value |
| `CabBooking.ToggleRequirement` | app/cabs/page.tsx:82-91 | exactly the named flag flips; the other flags and every non-flag field are unchanged |
| `CabBooking.ToggleRequirementTwice` | app/cabs/page.tsx:82-91 | toggling a flag twice is the identity |
| `CabBooking.WithEndpoint` | app/cabs/page.tsx:71-78 | writes the address and coordinates of one endpoint; the other endpoint, passengers, name, phone, email and flags are unchanged |
| `CabBooking.SelectLocation` | app/cabs/page.tsx:66-80 | nothing changes without a pending endpoint; otherwise only the pending endpoint is written |
| `CabBooking.MapEndpoint` | app/cabs/page.tsx:405-422 | an endpoint goes to the map iff its stored latitude is not 0, with the stored coordinates and address |
| `CabBooking.PickedLocationReachesMap` | app/cabs/page.tsx:66-80 | a picked location reaches the map unchanged unless its latitude is 0; the other endpoint's map value is unchanged |
| `CabBooking.TypedAddressKeepsPoint` | app/cabs/page.tsx:405-413 | typing a pickup address renames the map's pickup without moving it or changing whether it is shown |
| `CabBooking.MissingRequired` | app/cabs/page.tsx:97-107 | the required-field test; its use is stated by `Validate` and `InitialBookingIsIncomplete` |
| `CabBooking.IsValidEmail` | app/cabs/page.tsx:110-111 | an accepted email has an '@', a '.', no space and at least five characters; `EmailCheckMatchesPattern` states it equals the pattern |
| `CabBooking.EmailCheckMatchesPattern` | app/cabs/page.tsx:110-111 | the position-based email check accepts exactly the strings local@host.tld with three non-empty, white-space-free, '@'-free runs |
| `CabBooking.IsValidPhone` | app/cabs/page.tsx:116-118 | an accepted phone has ten characters, no space, and does not start with 0; `PhoneCheckByValue` states the exact range |
| `CabBooking.PhoneCheckByValue` | app/cabs/page.tsx:116-118 | a ten-digit string passes iff its value is at least 6000000000 (the valid numbers are 6000000000..9999999999) |
| `CabBooking.Validate` | app/cabs/page.tsx:97-121 | "missing fields" iff a required field or the date is empty; "bad email" iff none is missing and the email fails; "bad phone" iff both earlier checks pass and the phone fails; accepted iff all pass |
| `CabBooking.InitialBookingIsIncomplete` | app/cabs/page.tsx:97-107 | a fresh form is refused for missing fields |
| `CabBooking.CabFare` | app/cabs/page.tsx:142-152 | fare is the least integer ≥ 200 + 15·distance + (50 if any requirement is ticked, else 0) |
| `CabBooking.CabFareFloor` | app/cabs/page.tsx:142-151 | for distance ≥ 0 the fare is ≥ 200, and ≥ 250 with a requirement ticked |
| `CabBooking.CabFareMonotone` | app/cabs/page.tsx:142-151 | the fare never decreases with distance or with ticking a requirement |
| `CabBooking.BookingPage.constructor` | app/cabs/page.tsx:28-54 | no date, nothing pending, zero route, the initial booking record |
| `CabBooking.BookingPage.InputChange` | app/cabs/page.tsx:56-64 | booking becomes `WithField(old booking, field, value)` |
| `CabBooking.BookingPage.PinPressed` | app/cabs/page.tsx:194-201 | pending selection is the button's endpoint, with zero coordinates and an empty address |
| `CabBooking.BookingPage.LocationSelect` | app/cabs/page.tsx:66-80 | booking becomes `SelectLocation(old booking, old pending, location)`; nothing is pending afterwards |
| `CabBooking.BookingPage.RequirementChange` | app/cabs/page.tsx:82-91 | booking becomes `ToggleRequirement(old booking, flag)` |
| `CabBooking.BookingPage.DateSelected` | app/cabs/page.tsx:255-258 | stores the picked date |
| `CabBooking.BookingPage.RouteUpdated` | app/cabs/page.tsx:423 | stores the map's route report |
| `Text.ToLower` | app/care/page.tsx:81 | same length; each character is lowered; no upper-case ASCII letter remains |
| `Text.ContainsAt` | app/care/page.tsx:84 | `includes` holds iff the needle occurs at some offset of the haystack |
| `Lists.Filter` | app/care/page.tsx:82-89 | an element is kept iff it is in the input and passes the test; result is no longer than the input |
| `Lists.FilterIsSubsequence` | app/care/page.tsx:82-105 | filtering keeps the order of the survivors |
| `Lists.SubsequenceTransitive` | app/care/page.tsx:70-108 | a subsequence of a subsequence is a subsequence |
| `Lists.FilterFusion3` | app/care/page.tsx:80-106 | three filters in a row equal one filter by the conjunction |
| `CareSearch.ToProvider` | app/care/page.tsx:51-58 | profilePicture becomes image and bio becomes tagline; id, name, specializations and location are copied |
| `CareSearch.AllProviders` | app/care/page.tsx:50-59 | one card per record, in record order |
| `CareSearch.Search` | app/care/page.tsx:69-109 | the listing is no longer than the records and shows only cards built from them; `SearchIsOneFilter`, `SearchMembership` and `SearchPreservesOrder` state the rest |
| `CareSearch.SearchIsOneFilter` | app/care/page.tsx:69-109 | the three guarded passes equal a single filter by keyword ∧ location ∧ specializations |
| `CareSearch.SearchMembership` | app/care/page.tsx:80-106 | a provider is listed iff it has a record, its lower-cased name, tagline or a specialization contains the lower-cased query, its lower-cased location contains the lower-cased choice, and it has every ticked label |
| `CareSearch.SearchPreservesOrder` | app/care/page.tsx:70-108 | the listing is an order-preserving subsequence of the full listing |
| `CareSearch.NoFilterShowsAll` | app/care/page.tsx:69-109 | no query, no location and nothing ticked give the full listing |
| `CareSearch.Untick` | app/care/page.tsx:271-276 | the label is gone, every other entry stays, and order is kept |
| `CareSearch.TickThenUntick` | app/care/page.tsx:265-278 | ticking a new label and unticking it restores the selection |
| `CareSearch.CarePage.constructor` | app/care/page.tsx:50-67 | full listing, every control empty, and the listing is in sync |
| `CareSearch.CarePage.HandleSearch` | app/care/page.tsx:69-109 | the listing becomes the search over the current query, location and labels |
| `CareSearch.CarePage.SetSearchQuery` | app/care/page.tsx:130-132 | stores the query and re-runs the search |
| `CareSearch.CarePage.SetLocation` | app/care/page.tsx:172-175 | stores the location and re-runs the search |
| `CareSearch.CarePage.SetAvailability` | app/care/page.tsx:196-199 | stores the availability; the listing stays in sync without a new search |
| `CareSearch.CarePage.SetLanguage` | app/care/page.tsx:219-222 | stores the language; the listing stays in sync without a new search |
| `CareSearch.CarePage.SetPriceRange` | app/care/page.tsx:239-242 | stores the price range; the listing stays in sync without a new search |
| `CareSearch.CarePage.SpecializationChanged` | app/care/page.tsx:265-278 | ticking appends the label; unticking removes every occurrence; the search re-runs |
| `CareSearch.CarePage.ClearFilters` | app/care/page.tsx:111-128 | every control is emptied, the full listing returns, and it is in sync |

## Left out

- Leaflet rendering is not modelled: tiles, icons, popups, DOM controls, CSS, `setView` and `fitBounds`. Markers and the route are only per-role slots.
- The `fetch` calls to the geocoding and routing services and `navigator.geolocation` are not modelled. Their answers are parameters, and a thrown error is `None`.
- `parseFloat` on the geocoder's `lat`/`lon` strings is not modelled. Hits carry their coordinates as numbers.
- A reverse-geocoding answer without `display_name` is not modelled. Such an answer would hand over an `undefined` address.
- Asynchronous ordering is not modelled. This covers racing geocoding answers (the last to arrive wins), a `routesfound` event from a route control already removed, the `isSubscribed` flag, and the unmount cleanup. These depend on event-loop timing, not on the sequential logic.
- The order of the effects after a mode change is not enforced by the model. The code removes the map before the endpoint effect runs, and rebuilds it after an asynchronous import. `TearDown`, `SyncEndpoints` and `InitializeMap` are separate methods that a caller runs in that order.
- Failures inside map setup (the dynamic imports) are not modelled.
- IEEE-754 arithmetic is not modelled. Distances and fares are exact reals. In floating point, `1.2 - 1` is slightly below 0.2. The totals in the examples are the same either way.
- `RouteUpdate`: requires a non-empty route list. The router reports `routesfound` only with at least one route, and the code reads `routes[0]` unguarded.
- `Text.ToLower` lowers only the ASCII letters. `toLowerCase` maps all of Unicode.
- Regular expressions in general are not modelled. The two patterns are written out as predicates.
- `handleInputChange` is modelled for the six named fields. The passenger select (app/cabs/page.tsx:273-277) sets the same field as an input change. Keys other than these six cannot come from the form.
- The specialization checkbox's `checked` value is treated as a boolean. Its "indeterminate" state is not modelled.
- `alert`, `console`, `date-fns` formatting, the booking payload and `toISOString` are not modelled (app/cabs/page.tsx:123-138). The date is only tested for presence.
- The caregiver data file is not part of this model. `CarePage` takes the records as a constructor argument.
- The cab page renders a map imported from `components/ui/openstreet-map`, which is not part of this model. No lemma joins the page to `components/ui/map-component.tsx`.
- The static pages, footer, hero, pricing, dashboard and provider detail page are markup and service calls with no logic. They are not modelled.
