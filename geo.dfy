/** The values shared by the ride map and the cab booking page. */
module Geo {

  /** The two ends of a ride: the `"pickup" | "destination"` tag of both pages. */
  datatype Endpoint = Pickup | Destination

  /** A point on the map, `{ lat, lng }`. */
  datatype LatLng = LatLng(lat: real, lng: real)

  /** A resolved point with its address: `{ lat, lng, address }`. */
  datatype Location = Location(lat: real, lng: real, address: string)
  {
    function Position(): LatLng
    {
      LatLng(lat, lng)
    }
  }
}
