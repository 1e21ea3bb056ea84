/** LocationManager.swift: the delegate (named `locationManager` there) that publishes the
    latitude and longitude of the FIRST location of an update and a loading flag. */
module DeviceLocation {
  import opened Common

  class LocationManager {
    var latitude: Option<real>
    var longitude: Option<real>
    var isLoading: bool
    /** The requests sent to the `CLLocationManager`, in order. */
    var calls: seq<ManagerCall>
    /** The location the published coordinates were read from, if any. */
    ghost var fix: Option<Coordinate>

    /** Both coordinates are absent, or both come from the same location. */
    ghost predicate Valid()
      reads this
      ensures Valid() ==> (latitude.Some? <==> longitude.Some?)
    {
      match fix
      case None => latitude.None? && longitude.None?
      case Some(c) => latitude == Some(c.latitude) && longitude == Some(c.longitude)
    }

    /** `init` asks for permission only. */
    constructor ()
      ensures Valid() && latitude.None? && longitude.None? && !isLoading
      ensures calls == [RequestWhenInUseAuthorization]
    {
      latitude, longitude := None, None;
      isLoading := false;
      calls := [RequestWhenInUseAuthorization];
      fix := None;
    }

    method RequestLocation()
      requires Valid()
      modifies this
      ensures Valid() && isLoading
      ensures calls == old(calls) + [ManagerCall.RequestLocation]
      ensures latitude == old(latitude) && longitude == old(longitude)
    {
      isLoading := true;
      calls := calls + [ManagerCall.RequestLocation];
    }

    /** A non-empty update publishes its first location; the flag is cleared even for an
        empty one. */
    method DidUpdateLocations(locations: seq<Coordinate>)
      requires Valid()
      modifies this
      ensures Valid() && !isLoading && calls == old(calls)
      ensures locations != [] ==>
                latitude == Some(locations[0].latitude) && longitude == Some(locations[0].longitude)
      ensures locations == [] ==> latitude == old(latitude) && longitude == old(longitude)
    {
      if locations != [] {
        var first := locations[0];
        latitude := Some(first.latitude);
        longitude := Some(first.longitude);
        fix := Some(first);
      }
      isLoading := false;
    }

    /** A failure clears the flag and keeps the coordinates. */
    method DidFailWithError(description: string)
      requires Valid()
      modifies this
      ensures Valid() && !isLoading && calls == old(calls)
      ensures latitude == old(latitude) && longitude == old(longitude)
    {
      isLoading := false;
    }
  }
}
