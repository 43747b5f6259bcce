/** The cab booking page: the booking record and the handlers that edit it,
    the endpoints it passes to the map, the checks made on submit, and the
    fare estimate the page displays (a formula of its own, different from the
    map's). */
module CabBooking {
  import opened Wrappers
  import opened Geo
  import opened Numbers
  import opened Text

  /** The four accessibility checkboxes. */
  datatype Requirement = Wheelchair | Boarding | ExtraSpace | ServiceAnimal

  datatype Requirements = Requirements(wheelchair: bool, boarding: bool, extraSpace: bool, serviceAnimal: bool)

  /** The text fields of the form, named as the inputs' `name` attributes. */
  datatype Field = PickupField | DestinationField | PassengersField | NameField | PhoneField | EmailField

  /** `bookingData`. */
  datatype BookingData = BookingData(
    pickup: string,
    destination: string,
    passengers: string,
    name: string,
    phone: string,
    email: string,
    requirements: Requirements,
    pickupCoords: LatLng,
    destinationCoords: LatLng)

  /** `selectedLocation`: the endpoint the next map pick is for. */
  datatype PendingSelection = PendingSelection(kind: Endpoint, lat: real, lng: real, address: string)

  /** `routeInfo`: what the map last reported. */
  datatype RouteMetrics = RouteMetrics(distance: real, duration: int)

  /** How a submit ends: one of the three alerts, or the booking goes out. */
  datatype SubmitOutcome = MissingFields | InvalidEmail | InvalidPhone | Accepted

  /** A day picked in the calendar; only its presence is ever inspected. */
  type Date = int

  const NoRequirements: Requirements := Requirements(false, false, false, false)

  const InitialBooking: BookingData :=
    BookingData("", "", "1", "", "", "", NoRequirements, LatLng(0.0, 0.0), LatLng(0.0, 0.0))

  // ----- handleInputChange -----

  function FieldValue(b: BookingData, f: Field): string
  {
    match f
    case PickupField => b.pickup
    case DestinationField => b.destination
    case PassengersField => b.passengers
    case NameField => b.name
    case PhoneField => b.phone
    case EmailField => b.email
  }

  /** `{ ...prev, [name]: value }`: the named field takes the value and
      nothing else changes. */
  function WithField(b: BookingData, f: Field, value: string): (r: BookingData)
    ensures FieldValue(r, f) == value
    ensures forall g :: g != f ==> FieldValue(r, g) == FieldValue(b, g)
    ensures r.requirements == b.requirements
    ensures r.pickupCoords == b.pickupCoords && r.destinationCoords == b.destinationCoords
  {
    match f
    case PickupField => b.(pickup := value)
    case DestinationField => b.(destination := value)
    case PassengersField => b.(passengers := value)
    case NameField => b.(name := value)
    case PhoneField => b.(phone := value)
    case EmailField => b.(email := value)
  }

  /** Writing a field twice keeps only the second value. */
  lemma WithFieldOverwrites(b: BookingData, f: Field, v1: string, v2: string)
    ensures WithField(WithField(b, f, v1), f, v2) == WithField(b, f, v2)
  {
  }

  // ----- handleRequirementChange -----

  function Flag(r: Requirements, q: Requirement): bool
  {
    match q
    case Wheelchair => r.wheelchair
    case Boarding => r.boarding
    case ExtraSpace => r.extraSpace
    case ServiceAnimal => r.serviceAnimal
  }

  /** The booking with one requirement flag flipped. */
  function ToggleRequirement(b: BookingData, q: Requirement): (r: BookingData)
    ensures Flag(r.requirements, q) == !Flag(b.requirements, q)
    ensures forall p :: p != q ==> Flag(r.requirements, p) == Flag(b.requirements, p)
    ensures r.(requirements := b.requirements) == b
  {
    var was := b.requirements;
    b.(requirements :=
      match q
      case Wheelchair => was.(wheelchair := !was.wheelchair)
      case Boarding => was.(boarding := !was.boarding)
      case ExtraSpace => was.(extraSpace := !was.extraSpace)
      case ServiceAnimal => was.(serviceAnimal := !was.serviceAnimal))
  }

  /** Clicking the same checkbox twice restores the booking. */
  lemma ToggleRequirementTwice(b: BookingData, q: Requirement)
    ensures ToggleRequirement(ToggleRequirement(b, q), q) == b
  {
    var once := ToggleRequirement(b, q);
    var twice := ToggleRequirement(once, q);
    assert twice.(requirements := b.requirements) == b;
    assert Flag(twice.requirements, Wheelchair) == Flag(b.requirements, Wheelchair);
    assert Flag(twice.requirements, Boarding) == Flag(b.requirements, Boarding);
    assert Flag(twice.requirements, ExtraSpace) == Flag(b.requirements, ExtraSpace);
    assert Flag(twice.requirements, ServiceAnimal) == Flag(b.requirements, ServiceAnimal);
  }

  // ----- handleLocationSelect -----

  function Address(b: BookingData, e: Endpoint): string
  {
    if e == Pickup then b.pickup else b.destination
  }

  function Coords(b: BookingData, e: Endpoint): LatLng
  {
    if e == Pickup then b.pickupCoords else b.destinationCoords
  }

  function Other(e: Endpoint): Endpoint
  {
    if e == Pickup then Destination else Pickup
  }

  /** `{ ...prev, [type]: address, [type + "Coords"]: { lat, lng } }`. */
  function WithEndpoint(b: BookingData, e: Endpoint, loc: Location): (r: BookingData)
    ensures Address(r, e) == loc.address && Coords(r, e) == loc.Position()
    ensures Address(r, Other(e)) == Address(b, Other(e)) && Coords(r, Other(e)) == Coords(b, Other(e))
    ensures r.passengers == b.passengers && r.name == b.name && r.phone == b.phone && r.email == b.email
    ensures r.requirements == b.requirements
  {
    match e
    case Pickup => b.(pickup := loc.address, pickupCoords := loc.Position())
    case Destination => b.(destination := loc.address, destinationCoords := loc.Position())
  }

  /** A picked location: ignored when no endpoint is pending, otherwise
      written to the pending endpoint. */
  function SelectLocation(b: BookingData, pending: Option<PendingSelection>, loc: Location): (r: BookingData)
    ensures pending.None? ==> r == b
    ensures pending.Some? ==> r == WithEndpoint(b, pending.value.kind, loc)
  {
    match pending
    case None => b
    case Some(sel) => WithEndpoint(b, sel.kind, loc)
  }

  // ----- the endpoints handed to the map -----

  /** The endpoint passed to the map: present exactly when its stored
      latitude is not zero. */
  function MapEndpoint(b: BookingData, e: Endpoint): (r: Option<Location>)
    ensures r.Some? <==> Coords(b, e).lat != 0.0
    ensures r.Some? ==> r.value.Position() == Coords(b, e) && r.value.address == Address(b, e)
  {
    var c := Coords(b, e);
    if c.lat != 0.0 then Some(Location(c.lat, c.lng, Address(b, e))) else None
  }

  /** A picked location comes back to the map unchanged, unless it lies on
      the equator, where a latitude of zero reads as "unset"; the other
      endpoint is left as it was. */
  lemma PickedLocationReachesMap(b: BookingData, e: Endpoint, loc: Location)
    ensures MapEndpoint(WithEndpoint(b, e, loc), e) == if loc.lat != 0.0 then Some(loc) else None
    ensures MapEndpoint(WithEndpoint(b, e, loc), Other(e)) == MapEndpoint(b, Other(e))
  {
  }

  /** Typing into an address field renames the endpoint on the map but does
      not move it. */
  lemma TypedAddressKeepsPoint(b: BookingData, value: string)
    ensures MapEndpoint(WithField(b, PickupField, value), Pickup).Some? <==> MapEndpoint(b, Pickup).Some?
    ensures MapEndpoint(b, Pickup).Some? ==>
              MapEndpoint(WithField(b, PickupField, value), Pickup) ==
              Some(Location(b.pickupCoords.lat, b.pickupCoords.lng, value))
  {
  }

  // ----- handleSubmit -----

  /** One of pickup, destination, date, name, phone or email is empty. */
  predicate MissingRequired(b: BookingData, date: Option<Date>)
  {
    b.pickup == "" || b.destination == "" || date.None? || b.name == "" || b.phone == "" || b.email == ""
  }

  /** `[^\s@]` */
  predicate EmailChar(c: char)
  {
    !IsWhitespace(c) && c != '@'
  }

  /** `[^\s@]+` */
  predicate IsSegment(t: string)
  {
    |t| > 0 && forall k :: 0 <= k < |t| ==> EmailChar(t[k])
  }

  /** `/^[^\s@]+@[^\s@]+\.[^\s@]+$/`, read as the regular expression reads:
      three non-empty runs without white space or '@', joined by '@' and '.'. */
  ghost predicate EmailPattern(s: string)
  {
    exists local, host, tld :: s == local + "@" + host + "." + tld && IsSegment(local) && IsSegment(host) && IsSegment(tld)
  }

  /** The email check by positions: an '@' at `i` with something before it,
      a '.' at `j` with something between them and something after it, and
      no white space or other '@' anywhere. */
  predicate IsValidEmail(s: string)
    ensures IsValidEmail(s) ==> |s| >= 5 && '@' in s && '.' in s && ' ' !in s
  {
    exists i, j | 0 < i < |s| && i + 1 < j < |s| - 1 ::
      s[i] == '@' && s[j] == '.' && forall k | 0 <= k < |s| :: k != i ==> EmailChar(s[k])
  }

  /** The positional check accepts exactly the strings the pattern matches. */
  lemma EmailCheckMatchesPattern(s: string)
    ensures IsValidEmail(s) <==> EmailPattern(s)
  {
    if IsValidEmail(s) {
      var i, j :| 0 < i < |s| && i + 1 < j < |s| - 1 &&
        s[i] == '@' && s[j] == '.' && forall k | 0 <= k < |s| :: k != i ==> EmailChar(s[k]);
      var local, host, tld := s[..i], s[i + 1..j], s[j + 1..];
      assert s == local + "@" + host + "." + tld;
      forall k | 0 <= k < |host| ensures EmailChar(host[k]) {
        assert host[k] == s[i + 1 + k];
      }
      forall k | 0 <= k < |tld| ensures EmailChar(tld[k]) {
        assert tld[k] == s[j + 1 + k];
      }
      assert IsSegment(local) && IsSegment(host) && IsSegment(tld);
    }
    if EmailPattern(s) {
      var local, host, tld :| s == local + "@" + host + "." + tld && IsSegment(local) && IsSegment(host) && IsSegment(tld);
      var i, j := |local|, |local| + 1 + |host|;
      assert s[i] == '@' && s[j] == '.';
      forall k | 0 <= k < |s| && k != i ensures EmailChar(s[k]) {
        if k < i {
          assert s[k] == local[k];
        } else if k < j {
          assert s[k] == host[k - i - 1];
        } else if k > j {
          assert s[k] == tld[k - j - 1];
        }
      }
    }
  }

  /** `/^[6-9]\d{9}$/`: ten digits, the first of them 6 to 9. */
  predicate IsValidPhone(s: string)
    ensures IsValidPhone(s) ==> |s| == 10 && s[0] != '0' && ' ' !in s
  {
    |s| == 10 && '6' <= s[0] <= '9' && forall k :: 0 <= k < |s| ==> IsDigit(s[k])
  }

  function Pow10(n: nat): (p: nat)
    ensures p >= 1
  {
    if n == 0 then 1 else 10 * Pow10(n - 1)
  }

  /** The number a string of digits spells. */
  function DecimalValue(s: string): int
    requires forall k :: 0 <= k < |s| ==> IsDigit(s[k])
  {
    if s == [] then 0 else (s[0] as int - '0' as int) * Pow10(|s| - 1) + DecimalValue(s[1..])
  }

  lemma {:induction false} DecimalValueBounds(s: string)
    requires forall k :: 0 <= k < |s| ==> IsDigit(s[k])
    ensures 0 <= DecimalValue(s) < Pow10(|s|)
    decreases |s|
  {
    if s != [] {
      DecimalValueBounds(s[1..]);
      var d := s[0] as int - '0' as int;
      assert 0 <= d <= 9;
      assert d * Pow10(|s| - 1) <= 9 * Pow10(|s| - 1);
    }
  }

  /** A ten-digit string passes the phone check exactly when the number it
      spells is at least 6,000,000,000: the valid numbers are those from
      6000000000 to 9999999999. */
  lemma PhoneCheckByValue(s: string)
    requires |s| == 10 && forall k :: 0 <= k < |s| ==> IsDigit(s[k])
    ensures IsValidPhone(s) <==> DecimalValue(s) >= 6000000000
    ensures DecimalValue(s) <= 9999999999
  {
    assert Pow10(9) == 1000000000 by {
      assert Pow10(0) == 1;
      assert Pow10(3) == 1000;
      assert Pow10(6) == 1000000;
    }
    DecimalValueBounds(s[1..]);
    var d := s[0] as int - '0' as int;
    assert DecimalValue(s) == d * 1000000000 + DecimalValue(s[1..]);
  }

  /** The submit checks in the order the page makes them: required fields
      first, then the email, then the phone; the first failure ends it. */
  function Validate(b: BookingData, date: Option<Date>): (r: SubmitOutcome)
    ensures r == MissingFields <==> MissingRequired(b, date)
    ensures r == InvalidEmail <==> !MissingRequired(b, date) && !IsValidEmail(b.email)
    ensures r == InvalidPhone <==> !MissingRequired(b, date) && IsValidEmail(b.email) && !IsValidPhone(b.phone)
    ensures r == Accepted <==> !MissingRequired(b, date) && IsValidEmail(b.email) && IsValidPhone(b.phone)
  {
    if MissingRequired(b, date) then MissingFields
    else if !IsValidEmail(b.email) then InvalidEmail
    else if !IsValidPhone(b.phone) then InvalidPhone
    else Accepted
  }

  /** A fresh form cannot be submitted. */
  lemma InitialBookingIsIncomplete(date: Option<Date>)
    ensures Validate(InitialBooking, date) == MissingFields
  {
  }

  // ----- calculateFare (the page's own estimate) -----

  predicate AnyRequirement(r: Requirements)
  {
    r.wheelchair || r.boarding || r.extraSpace || r.serviceAnimal
  }

  /** `ceil(200 + 15 * distance + surcharge)`, the surcharge being 50 when
      at least one requirement is ticked. */
  function CabFare(distance: real, requirements: Requirements): (fare: int)
    ensures var exact := 200.0 + 15.0 * distance + (if AnyRequirement(requirements) then 50.0 else 0.0);
            exact <= fare as real < exact + 1.0
  {
    var baseFare := 200.0;
    var perKmRate := 15.0;
    var accessibilitySurcharge := if AnyRequirement(requirements) then 50.0 else 0.0;
    var distanceFare := distance * perKmRate;
    Ceil(baseFare + distanceFare + accessibilitySurcharge)
  }

  /** For a real ride the estimate is at least the base fare, and at least
      250 once a requirement is ticked. */
  lemma CabFareFloor(distance: real, requirements: Requirements)
    requires distance >= 0.0
    ensures CabFare(distance, requirements) >= 200
    ensures AnyRequirement(requirements) ==> CabFare(distance, requirements) >= 250
  {
  }

  /** A longer ride, or one with a requirement ticked, never costs less. */
  lemma CabFareMonotone(d1: real, d2: real, r1: Requirements, r2: Requirements)
    requires d1 <= d2
    requires AnyRequirement(r1) ==> AnyRequirement(r2)
    ensures CabFare(d1, r1) <= CabFare(d2, r2)
  {
    var e1 := 200.0 + 15.0 * d1 + (if AnyRequirement(r1) then 50.0 else 0.0);
    var e2 := 200.0 + 15.0 * d2 + (if AnyRequirement(r2) then 50.0 else 0.0);
    CeilMonotone(e1, e2);
  }

  /** The booking page's state. */
  class BookingPage {
    var date: Option<Date>
    var selectedLocation: Option<PendingSelection>
    var routeInfo: RouteMetrics
    var booking: BookingData

    constructor ()
      ensures date == None && selectedLocation == None
      ensures routeInfo == RouteMetrics(0.0, 0) && booking == InitialBooking
    {
      date := None;
      selectedLocation := None;
      routeInfo := RouteMetrics(0.0, 0);
      booking := InitialBooking;
    }

    /** A text input's `onChange`, and the passenger select. */
    method InputChange(f: Field, value: string)
      modifies this`booking
      ensures booking == WithField(old(booking), f, value)
    {
      match f {
        case PickupField => booking := booking.(pickup := value);
        case DestinationField => booking := booking.(destination := value);
        case PassengersField => booking := booking.(passengers := value);
        case NameField => booking := booking.(name := value);
        case PhoneField => booking := booking.(phone := value);
        case EmailField => booking := booking.(email := value);
      }
    }

    /** A map-pin button: the next map pick is for `kind`. */
    method PinPressed(kind: Endpoint)
      modifies this`selectedLocation
      ensures selectedLocation == Some(PendingSelection(kind, 0.0, 0.0, ""))
    {
      selectedLocation := Some(PendingSelection(kind, 0.0, 0.0, ""));
    }

    /** The callback the map calls with a picked location. */
    method LocationSelect(loc: Location)
      modifies this`booking, this`selectedLocation
      ensures booking == SelectLocation(old(booking), old(selectedLocation), loc)
      ensures selectedLocation == None
    {
      if selectedLocation.Some? {
        var kind := selectedLocation.value.kind;
        if kind == Pickup {
          booking := booking.(pickup := loc.address, pickupCoords := LatLng(loc.lat, loc.lng));
        } else {
          booking := booking.(destination := loc.address, destinationCoords := LatLng(loc.lat, loc.lng));
        }
        selectedLocation := None;
      }
    }

    method RequirementChange(q: Requirement)
      modifies this`booking
      ensures booking == ToggleRequirement(old(booking), q)
    {
      var r := booking.requirements;
      match q {
        case Wheelchair => r := r.(wheelchair := !r.wheelchair);
        case Boarding => r := r.(boarding := !r.boarding);
        case ExtraSpace => r := r.(extraSpace := !r.extraSpace);
        case ServiceAnimal => r := r.(serviceAnimal := !r.serviceAnimal);
      }
      booking := booking.(requirements := r);
    }

    /** The calendar's `onSelect`. */
    method DateSelected(d: Option<Date>)
      modifies this`date
      ensures date == d
    {
      date := d;
    }

    /** The map's `onRouteUpdate`. */
    method RouteUpdated(info: RouteMetrics)
      modifies this`routeInfo
      ensures routeInfo == info
    {
      routeInfo := info;
    }
  }
}
