/** Value types shared by the screens and managers: optional values, platform outcomes,
    coordinates and the reverse-geocoder's placemarks. */
module Common {

  /** Swift's `Optional`. */
  datatype Option<+T> = None | Some(value: T) {
    /** Swift's `??` operator. */
    function GetOr(default: T): T {
      match this
      case Some(v) => v
      case None => default
    }
  }

  /** The outcome of a platform call that can fail (a decode, a request); the failure carries
      the error's `localizedDescription`. */
  datatype Result<+T> = Ok(value: T) | Err(description: string)

  /** `CLLocationCoordinate2D`; the source's `Double`s are modelled as reals. */
  datatype Coordinate = Coordinate(latitude: real, longitude: real)

  /** The two fields of a `CLPlacemark` that the screens read. */
  datatype Placemark = Placemark(locality: Option<string>, administrativeArea: Option<string>)

  /** The requests the delegates send back to their `CLLocationManager`. */
  datatype ManagerCall = RequestWhenInUseAuthorization | RequestLocation | StopUpdatingLocation

  /** `placemarks?.first`: the geocoder hands back an optional array. */
  function FirstPlacemark(placemarks: Option<seq<Placemark>>): (first: Option<Placemark>)
    ensures first.None? <==> placemarks.None? || placemarks.value == []
    ensures first.Some? ==> first.value == placemarks.value[0]
  {
    match placemarks
    case Some(ps) => if ps == [] then None else Some(ps[0])
    case None => None
  }

  /** `name ?? "Unknown"`, the fallback for a placemark field the geocoder left out. */
  function OrUnknown(name: Option<string>): (s: string)
    ensures name.Some? ==> s == name.value
    ensures name.None? ==> s == "Unknown"
  {
    name.GetOr("Unknown")
  }
}
