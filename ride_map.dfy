/** The interactive ride map (the map component): the selection mode that
    decides which endpoint a click or a search fills in, the handlers for map
    clicks and for the search box, and the step that redraws the endpoint
    markers and the route whenever an endpoint changes. The answers of the
    geocoding service, the routing service and the browser's geolocation are
    parameters. */
module RideMap {
  import opened Wrappers
  import opened Geo
  import opened Numbers
  import RideFare

  /** `"pickup" | "destination" | null`: which endpoint the next pick fills. */
  type Mode = Option<Endpoint>

  /** Central Mumbai, used when the browser gives no position. */
  const DefaultCenter: LatLng := LatLng(19.076, 72.8777)

  /** What `navigator.geolocation` yields: no geolocation at all, an error
      (denied, timed out), or a position. */
  datatype GeolocationAnswer = Unsupported | Failed | Position(coords: LatLng)

  /** One result of the forward geocoder: `{ lat, lon, display_name }`. */
  datatype SearchHit = SearchHit(lat: real, lon: real, displayName: string)

  /** The summary of a route found by the router, in metres and seconds. */
  datatype RouteSummary = RouteSummary(totalDistance: real, totalTime: real)

  /** What the map reports for a found route: kilometres, whole minutes, fare. */
  datatype RouteInfo = RouteInfo(distance: real, duration: int, fare: RideFare.FareBreakdown)

  /** The keys of the marker table: the user's own position and the two endpoints. */
  datatype MarkerSlot = CurrentSlot | EndpointSlot(endpoint: Endpoint)

  /** A marker object kept in the table; `onMap` is false once it has been removed. */
  datatype Marker = Marker(at: LatLng, onMap: bool)

  /** A routing control between two waypoints; `onMap` is false once removed. */
  datatype RouteControl = RouteControl(from: LatLng, to: LatLng, onMap: bool)

  /** What a map click leads to: whether the reverse geocoder is asked, the
      location handed to the page, and the next selection mode. */
  datatype ClickOutcome = ClickOutcome(lookedUp: bool, delivered: Option<Location>, mode: Mode)

  /** What a key press in the search box leads to: the query sent to the
      geocoder, the location handed to the page, and the new box text. */
  datatype SearchOutcome = SearchOutcome(query: Option<string>, delivered: Option<Location>, input: string)

  /** The start position: the device's, or the default center. */
  function StartPosition(answer: GeolocationAnswer): (p: LatLng)
    ensures answer.Position? ==> p == answer.coords
    ensures !answer.Position? ==> p == DefaultCenter
  {
    match answer
    case Position(coords) => coords
    case _ => DefaultCenter
  }

  /** The pickup or destination button: pressing the active mode's button
      cancels it, any other press selects that button's endpoint. */
  function Toggle(current: Mode, button: Endpoint): (next: Mode)
    ensures next == Some(button) <==> current != Some(button)
    ensures next == None <==> current == Some(button)
  {
    if current == Some(button) then None else Some(button)
  }

  /** Two presses of one button restore the mode if it was that button's,
      and otherwise end with no mode. */
  lemma ToggleTwice(current: Mode, button: Endpoint)
    ensures Toggle(Toggle(current, button), button) ==
            (if current == Some(button) then current else None)
  {
  }

  /** A map click: ignored without a mode; otherwise the reverse geocoder is
      asked, and on an answer the clicked point with its address is handed
      over and the mode is reset. A failed lookup changes nothing. */
  function OnMapClick(mode: Mode, at: LatLng, answer: Option<string>): (r: ClickOutcome)
    ensures r.lookedUp <==> mode.Some?
    ensures r.delivered.Some? <==> mode.Some? && answer.Some?
    ensures r.delivered.Some? ==> r.delivered.value == Location(at.lat, at.lng, answer.value)
    ensures r.mode == if r.delivered.Some? then None else mode
  {
    if mode.None? then ClickOutcome(false, None, mode)
    else match answer
      case None => ClickOutcome(true, None, mode)
      case Some(displayName) => ClickOutcome(true, Some(Location(at.lat, at.lng, displayName)), None)
  }

  /** A key press in the search box: only Enter with a mode sends the box's
      text to the geocoder; the first hit, if any, is handed over and the box
      is emptied. The mode is left as it was. */
  function OnSearchKey(mode: Mode, key: string, input: string, answer: Option<seq<SearchHit>>): (r: SearchOutcome)
    ensures r.query == if key == "Enter" && mode.Some? then Some(input) else None
    ensures r.delivered.Some? <==> r.query.Some? && answer.Some? && |answer.value| > 0
    ensures r.delivered.Some? ==>
              r.delivered.value == Location(answer.value[0].lat, answer.value[0].lon, answer.value[0].displayName)
    ensures r.input == if r.delivered.Some? then "" else input
  {
    if key == "Enter" && mode.Some? then
      match answer
      case Some(hits) =>
        if |hits| > 0 then
          SearchOutcome(Some(input), Some(Location(hits[0].lat, hits[0].lon, hits[0].displayName)), "")
        else SearchOutcome(Some(input), None, input)
      case None => SearchOutcome(Some(input), None, input)
    else SearchOutcome(None, None, input)
  }

  /** After a click has delivered a point, the next click and the next search
      do nothing until a button is pressed again; a successful search, which
      keeps the mode, leaves the next click able to pick. */
  lemma OnePickPerClick(mode: Mode, a: LatLng, b: LatLng, address: string, answer: Option<string>,
                        key: string, input: string, hits: Option<seq<SearchHit>>)
    requires mode.Some?
    ensures var next := OnMapClick(mode, a, Some(address)).mode;
            !OnMapClick(next, b, answer).lookedUp && OnMapClick(next, b, answer).delivered.None? &&
            OnSearchKey(next, key, input, hits).query.None? && OnSearchKey(next, key, input, hits).delivered.None?
    ensures OnMapClick(mode, b, answer).lookedUp
  {
  }

  /** The marker table with every marker but the user's own removed from the map. */
  function ClearedMarkers(m: map<MarkerSlot, Marker>): (r: map<MarkerSlot, Marker>)
    ensures r.Keys == m.Keys
    ensures forall k :: k in m ==> r[k].at == m[k].at && r[k].onMap == (m[k].onMap && k == CurrentSlot)
  {
    map k | k in m :: if k == CurrentSlot then m[k] else m[k].(onMap := false)
  }

  /** New markers for the endpoints that are present. */
  function PlacedMarkers(m: map<MarkerSlot, Marker>, pickup: Option<Location>, destination: Option<Location>)
    : (r: map<MarkerSlot, Marker>)
    ensures r.Keys == m.Keys + (if pickup.Some? then {EndpointSlot(Pickup)} else {})
                             + (if destination.Some? then {EndpointSlot(Destination)} else {})
    ensures pickup.Some? ==> r[EndpointSlot(Pickup)] == Marker(pickup.value.Position(), true)
    ensures destination.Some? ==> r[EndpointSlot(Destination)] == Marker(destination.value.Position(), true)
    ensures forall k :: k in m && k != EndpointSlot(Pickup) && k != EndpointSlot(Destination) ==> r[k] == m[k]
    ensures pickup.None? && EndpointSlot(Pickup) in m ==> r[EndpointSlot(Pickup)] == m[EndpointSlot(Pickup)]
    ensures destination.None? && EndpointSlot(Destination) in m ==>
              r[EndpointSlot(Destination)] == m[EndpointSlot(Destination)]
  {
    var withPickup :=
      if pickup.Some? then m[EndpointSlot(Pickup) := Marker(pickup.value.Position(), true)] else m;
    if destination.Some? then withPickup[EndpointSlot(Destination) := Marker(destination.value.Position(), true)]
    else withPickup
  }

  /** The point at which the marker of a slot is shown, if one is. */
  function Shown(m: map<MarkerSlot, Marker>, slot: MarkerSlot): Option<LatLng>
  {
    if slot in m && m[slot].onMap then Some(m[slot].at) else None
  }

  /** The position of an endpoint, if it is set. */
  function Where(e: Option<Location>): Option<LatLng>
  {
    if e.Some? then Some(e.value.Position()) else None
  }

  /** After the endpoints change, each endpoint marker on the map is exactly
      the one for the new endpoint (none when it is unset), whatever was shown
      before, and the user's own marker is as it was. Older markers stay in
      the table, removed from the map. */
  lemma MarkersFollowEndpoints(m: map<MarkerSlot, Marker>, pickup: Option<Location>, destination: Option<Location>)
    ensures var r := PlacedMarkers(ClearedMarkers(m), pickup, destination);
            && Shown(r, EndpointSlot(Pickup)) == Where(pickup)
            && Shown(r, EndpointSlot(Destination)) == Where(destination)
            && Shown(r, CurrentSlot) == Shown(m, CurrentSlot)
            && m.Keys <= r.Keys
  {
  }

  /** The marker table once the map itself is removed: every marker object
      is kept but none is on a map any more. */
  function Detached(m: map<MarkerSlot, Marker>): (r: map<MarkerSlot, Marker>)
    ensures r.Keys == m.Keys
    ensures forall k :: k in m ==> r[k].at == m[k].at && !r[k].onMap
  {
    map k | k in m :: m[k].(onMap := false)
  }

  /** The routing control once the map itself is removed. */
  function DetachedRoute(c: Option<RouteControl>): (r: Option<RouteControl>)
    ensures r.Some? <==> c.Some?
    ensures r.Some? ==> r.value.from == c.value.from && r.value.to == c.value.to && !r.value.onMap
  {
    if c.Some? then Some(c.value.(onMap := false)) else None
  }

  /** A pick by click resets the mode, and the mode change removes the map in
      the same update that hands the new endpoint to the page; the endpoint
      effect then finds no map and does nothing. The map built afterwards
      shows only the user's own marker and no route, and stays so until an
      endpoint changes again. */
  lemma RebuiltMapShowsNoEndpoints(m: map<MarkerSlot, Marker>, route: Option<RouteControl>, p: LatLng)
    ensures var r := Detached(m)[CurrentSlot := Marker(p, true)];
            && Shown(r, EndpointSlot(Pickup)) == None
            && Shown(r, EndpointSlot(Destination)) == None
            && Shown(r, CurrentSlot) == Some(p)
    ensures DetachedRoute(route).None? || !DetachedRoute(route).value.onMap
  {
  }

  /** The route slot after the endpoints change: a new live route between
      the two endpoints when both are set; otherwise the previous control,
      removed from the map. */
  function RouteAfter(previous: Option<RouteControl>, pickup: Option<Location>, destination: Option<Location>)
    : (r: Option<RouteControl>)
    ensures r.Some? && r.value.onMap <==> pickup.Some? && destination.Some?
    ensures r.Some? && r.value.onMap ==>
              r.value.from == pickup.value.Position() && r.value.to == destination.value.Position()
  {
    if pickup.Some? && destination.Some? then
      Some(RouteControl(pickup.value.Position(), destination.value.Position(), true))
    else if previous.Some? then Some(previous.value.(onMap := false))
    else None
  }

  /** The report for a found route: the first route only, its metres as
      kilometres, its seconds as minutes rounded half up, and its fare. */
  function RouteUpdate(routes: seq<RouteSummary>, hour: RideFare.Hour): (info: RouteInfo)
    requires |routes| > 0
    ensures info.distance * 1000.0 == routes[0].totalDistance
    ensures info.duration as real - 0.5 <= routes[0].totalTime / 60.0 < info.duration as real + 0.5
    ensures routes[0].totalTime >= 0.0 ==> info.duration >= 0
    ensures info.fare == RideFare.CalculateFare(info.distance, info.duration as real, hour)
  {
    var route := routes[0];
    var distance := route.totalDistance / 1000.0;
    var duration := RoundHalfUp(route.totalTime / 60.0);
    RouteInfo(distance, duration, RideFare.CalculateFare(distance, duration as real, hour))
  }

  /** The map component's own state: the start position, whether the map
      exists, the selection mode, the text of the search box, the marker
      table and the routing control. */
  class MapView {
    var userLocation: Option<LatLng>
    var mapReady: bool
    var mode: Mode
    var searchInput: string
    var markers: map<MarkerSlot, Marker>
    var routeControl: Option<RouteControl>

    constructor ()
      ensures userLocation == None && !mapReady && mode == None && searchInput == ""
      ensures markers == map[] && routeControl == None
    {
      userLocation := None;
      mapReady := false;
      mode := None;
      searchInput := "";
      markers := map[];
      routeControl := None;
    }

    /** The one-shot position request made on mount. */
    method Locate(answer: GeolocationAnswer)
      modifies this`userLocation
      ensures userLocation == Some(StartPosition(answer))
    {
      match answer {
        case Position(coords) => userLocation := Some(coords);
        case _ => userLocation := Some(DefaultCenter);
      }
    }

    /** Map creation: waits for a start position, happens once, and puts the
        user's own marker on the map. */
    method InitializeMap()
      modifies this`mapReady, this`markers
      ensures old(userLocation).None? || old(mapReady) ==> mapReady == old(mapReady) && markers == old(markers)
      ensures old(userLocation).Some? && !old(mapReady) ==>
                mapReady && markers == old(markers)[CurrentSlot := Marker(userLocation.value, true)]
    {
      if userLocation.None? || mapReady {
        return;
      }
      mapReady := true;
      markers := markers[CurrentSlot := Marker(userLocation.value, true)];
    }

    /** The clean-up run before the map is rebuilt (on every mode change):
        when a map exists it is removed together with everything drawn on it,
        and its search box with the text in it. The marker and route objects
        stay referenced. */
    method TearDown()
      modifies this`mapReady, this`markers, this`routeControl, this`searchInput
      ensures old(mapReady) ==>
                !mapReady && markers == Detached(old(markers)) &&
                routeControl == DetachedRoute(old(routeControl)) && searchInput == ""
      ensures !old(mapReady) ==>
                !mapReady && markers == old(markers) &&
                routeControl == old(routeControl) && searchInput == old(searchInput)
    {
      if mapReady {
        mapReady := false;
        markers := Detached(markers);
        routeControl := DetachedRoute(routeControl);
        searchInput := "";
      }
    }

    /** A press of the pickup or destination button, a control of the map:
        it toggles the mode, and the mode change tears the map down. */
    method PressButton(button: Endpoint)
      modifies this`mode, this`mapReady, this`markers, this`routeControl, this`searchInput
      ensures old(mapReady) ==> mode == Toggle(old(mode), button)
      ensures old(mapReady) ==>
                !mapReady && markers == Detached(old(markers)) &&
                routeControl == DetachedRoute(old(routeControl)) && searchInput == ""
      ensures !old(mapReady) ==>
                mode == old(mode) && !mapReady && markers == old(markers) &&
                routeControl == old(routeControl) && searchInput == old(searchInput)
    {
      if !mapReady {
        return;
      }
      if mode == Some(button) {
        mode := None;
      } else {
        mode := Some(button);
      }
      TearDown();
    }

    /** A click on the map: handled as `OnMapClick` says while the map
        exists; a pick resets the mode, which tears the map down. */
    method Click(at: LatLng, answer: Option<string>) returns (lookedUp: bool, delivered: Option<Location>)
      modifies this`mode, this`mapReady, this`markers, this`routeControl, this`searchInput
      ensures old(mapReady) ==> ClickOutcome(lookedUp, delivered, mode) == OnMapClick(old(mode), at, answer)
      ensures !old(mapReady) ==> !lookedUp && delivered.None? && mode == old(mode)
      ensures old(mapReady) && delivered.Some? ==>
                !mapReady && markers == Detached(old(markers)) &&
                routeControl == DetachedRoute(old(routeControl)) && searchInput == ""
      ensures !(old(mapReady) && delivered.Some?) ==>
                mapReady == old(mapReady) && markers == old(markers) &&
                routeControl == old(routeControl) && searchInput == old(searchInput)
    {
      if !mapReady || mode.None? {
        return false, None;
      }
      lookedUp := true;
      match answer {
        case None =>
          delivered := None;
        case Some(displayName) =>
          delivered := Some(Location(at.lat, at.lng, displayName));
          mode := None;
          TearDown();
      }
    }

    /** Typing into the search box, which exists only with the map and is
        disabled while no mode is selected. */
    method TypeSearch(text: string)
      modifies this`searchInput
      ensures searchInput == if mapReady && mode.Some? then text else old(searchInput)
    {
      if mapReady && mode.Some? {
        searchInput := text;
      }
    }

    /** A key press in the search box: handled as `OnSearchKey` says while
        the map exists. */
    method SearchKey(key: string, answer: Option<seq<SearchHit>>) returns (query: Option<string>, delivered: Option<Location>)
      modifies this`searchInput
      ensures SearchOutcome(query, delivered, searchInput) ==
              if mapReady then OnSearchKey(mode, key, old(searchInput), answer)
              else SearchOutcome(None, None, old(searchInput))
    {
      query, delivered := None, None;
      if mapReady && key == "Enter" && mode.Some? {
        query := Some(searchInput);
        if answer.Some? && |answer.value| > 0 {
          var hit := answer.value[0];
          delivered := Some(Location(hit.lat, hit.lon, hit.displayName));
          searchInput := "";
        }
      }
    }

    /** The effect run whenever an endpoint changes: every endpoint marker
        is removed from the map, the previous route is removed, new markers
        are placed for the endpoints that are set, and a route is requested
        when both are. Nothing happens before the map exists. */
    method SyncEndpoints(pickup: Option<Location>, destination: Option<Location>) returns (routeRequested: bool)
      modifies this`markers, this`routeControl
      ensures !mapReady ==> !routeRequested && markers == old(markers) && routeControl == old(routeControl)
      ensures mapReady ==> markers == PlacedMarkers(ClearedMarkers(old(markers)), pickup, destination)
      ensures mapReady ==> routeControl == RouteAfter(old(routeControl), pickup, destination)
      ensures routeRequested <==> mapReady && pickup.Some? && destination.Some?
    {
      if !mapReady {
        return false;
      }
      var pending := markers.Keys;
      while pending != {}
        invariant pending <= markers.Keys
        invariant markers.Keys == old(markers).Keys && routeControl == old(routeControl)
        invariant forall k :: k in pending ==> markers[k] == old(markers)[k]
        invariant forall k :: k in markers && k !in pending ==> markers[k] == ClearedMarkers(old(markers))[k]
        decreases pending
      {
        var k :| k in pending;
        if k != CurrentSlot {
          markers := markers[k := markers[k].(onMap := false)];
        }
        pending := pending - {k};
      }
      assert markers == ClearedMarkers(old(markers));
      if routeControl.Some? {
        routeControl := Some(routeControl.value.(onMap := false));
      }
      if pickup.Some? {
        markers := markers[EndpointSlot(Pickup) := Marker(pickup.value.Position(), true)];
      }
      if destination.Some? {
        markers := markers[EndpointSlot(Destination) := Marker(destination.value.Position(), true)];
      }
      routeRequested := pickup.Some? && destination.Some?;
      if routeRequested {
        routeControl := Some(RouteControl(pickup.value.Position(), destination.value.Position(), true));
      }
    }
  }
}
