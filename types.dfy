/** The accommodation record shared by the resolution pipeline and the map
    views. Its declaration is not in types.ts; the fields below are the ones
    the modelled code reads. */
module Types {
  import opened Wrappers

  /** The five geographic groupings used for marker colours and the legend. */
  datatype Cluster = Venue | OsniOrtiga | Centro | Rendeiras | Retiro

  /** A `{ lat, lng }` pair; coordinates are opaque values here. */
  datatype LatLng = LatLng(lat: real, lng: real)

  /** `rating` is optional; an empty `bookingUrl` stands for an absent one. */
  datatype Accommodation = Accommodation(
    id: string,
    name: string,
    address: string,
    lat: real,
    lng: real,
    isVenue: bool,
    cluster: Cluster,
    rating: Option<real>,
    distanceToVenue: string,
    bookingUrl: string)

  function Position(a: Accommodation): LatLng {
    LatLng(a.lat, a.lng)
  }
}
