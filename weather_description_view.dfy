/** WeatherDescriptionView.swift: the panel that shows the description of the first active
    alert for the reverse-geocoded city. */
module WeatherDescription {
  import opened Common
  import opened Content

  /** The text of the panel, or `None` while the spinner is shown. Only the first alert is
      consulted: its description verbatim, or a fallback naming the city; with no alert, the
      no-alerts message. */
  function DescriptionText(isLoading: bool, alerts: seq<WeatherAlert>, cityName: string)
    : (text: Option<string>)
    ensures isLoading <==> text.None?
    ensures !isLoading && alerts == [] ==> text == Some("No alerts for " + cityName + ".")
    ensures !isLoading && alerts != [] && alerts[0].description.Some? ==>
              text == alerts[0].description
    ensures !isLoading && alerts != [] && alerts[0].description.None? ==>
              text == Some("No description available for " + cityName + ".")
  {
    if isLoading then None
    else if alerts == [] then Some("No alerts for " + cityName + ".")
    else match alerts[0].description
      case Some(description) => Some(description)
      case None => Some("No description available for " + cityName + ".")
  }

  /** Alerts after the first never influence the text. */
  lemma OnlyFirstAlertConsulted(isLoading: bool, a: seq<WeatherAlert>, b: seq<WeatherAlert>,
                                cityName: string)
    requires a != [] && b != [] && a[0] == b[0]
    ensures DescriptionText(isLoading, a, cityName) == DescriptionText(isLoading, b, cityName)
  {
  }

  class WeatherDescriptionView {
    const locationManager: LocationManager
    const weatherService: WeatherService
    var cityName: string
    var isLoading: bool

    constructor ()
      ensures cityName == "Unknown" && isLoading
      ensures fresh(locationManager) && fresh(weatherService)
      ensures locationManager.location == None && weatherService.alerts == []
    {
      locationManager := new LocationManager();
      weatherService := new WeatherService();
      cityName := "Unknown";
      isLoading := true;
    }

    /** `onReceive(locationManager.$location)`. */
    method OnReceiveLocation()
      modifies this
      ensures locationManager.location.Some? ==> isLoading
      ensures locationManager.location.None? ==> isLoading == old(isLoading)
      ensures cityName == old(cityName)
    {
      if locationManager.location.Some? {
        ReverseGeocode(locationManager.location.value);
      }
    }

    method ReverseGeocode(location: Coordinate)
      modifies this
      ensures isLoading && cityName == old(cityName)
    {
      isLoading := true;
    }

    /** The geocoder's callback: the locality or "Unknown" and a fetch for the same
        coordinate, or "Error" and no fetch; the spinner ends either way. */
    method GeocodeCompleted(location: Coordinate, placemarks: Option<seq<Placemark>>)
      returns (fetch: Option<Coordinate>)
      modifies this
      ensures FirstPlacemark(placemarks).Some? ==>
                cityName == OrUnknown(FirstPlacemark(placemarks).value.locality)
                && fetch == Some(location)
      ensures FirstPlacemark(placemarks).None? ==> cityName == "Error" && fetch == None
      ensures !isLoading
    {
      match FirstPlacemark(placemarks) {
        case Some(placemark) =>
          cityName := OrUnknown(placemark.locality);
          fetch := Some(location);
        case None =>
          cityName := "Error";
          fetch := None;
      }
      isLoading := false;
    }
  }
}
