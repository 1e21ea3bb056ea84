/** The main screen (ContentView.swift): the alert feed of api.weather.gov as decoded by
    `WeatherService`, the severity colour of an alert, the reverse-geocode step that names
    the place and then asks for alerts, and the `CLLocationManager` delegate behind it. */
module Content {
  import opened Common

  // ---------------------------------------------------------------------------------------
  // The alert feed

  /** One alert, the `properties` object of a feed entry. */
  datatype WeatherAlert = WeatherAlert(
    id: string,
    headline: string,
    description: Option<string>,
    instruction: Option<string>,
    severity: string)

  /** One element of the feed's `features` array: its own `id` and the alert record. */
  datatype Feature = Feature(id: string, properties: WeatherAlert)

  /** The decoded JSON envelope. */
  datatype WeatherAlertResponse = WeatherAlertResponse(features: seq<Feature>)

  /** `features.map { $0.properties }`: the alerts in feed order, one per feature, keeping
      each record's own `id` and dropping the feature-level one. */
  function Properties(features: seq<Feature>): (alerts: seq<WeatherAlert>)
    ensures |alerts| == |features|
    ensures forall k :: 0 <= k < |features| ==> alerts[k] == features[k].properties
  {
    if features == [] then [] else [features[0].properties] + Properties(features[1..])
  }

  /** The alert list published by the screen. */
  class WeatherService {
    var alerts: seq<WeatherAlert>

    constructor ()
      ensures alerts == []
    {
      alerts := [];
    }

    /** `fetchWeatherAlerts` together with its data-task callback. `urlOk` is whether
        `URL(string:)` accepted the point query; `data` is `None` when the task delivered no
        body, and otherwise the decoder's outcome on that body. Only a successful decode
        changes the list; a missing body or a decode error keeps the previous alerts. */
    method FetchWeatherAlerts(urlOk: bool, data: Option<Result<WeatherAlertResponse>>)
      modifies this
      ensures urlOk && data.Some? && data.value.Ok? ==>
                alerts == Properties(data.value.value.features)
      ensures !(urlOk && data.Some? && data.value.Ok?) ==> alerts == old(alerts)
    {
      if !urlOk {
        return;
      }
      if data.Some? {
        match data.value
        case Ok(response) =>
          alerts := Properties(response.features);
        case Err(_) =>
      }
    }
  }

  // ---------------------------------------------------------------------------------------
  // Severity colour

  /** The five SwiftUI colours an alert's severity is painted in. */
  datatype Color = Red | Orange | Yellow | Green | Gray

  /** `severityColor(for:)`: an exact, case-sensitive match on four words, grey for
      anything else. */
  function SeverityColor(severity: string): (c: Color)
    ensures c == Red <==> severity == "Extreme"
    ensures c == Orange <==> severity == "Severe"
    ensures c == Yellow <==> severity == "Moderate"
    ensures c == Green <==> severity == "Minor"
    ensures c == Gray <==> severity !in ["Extreme", "Severe", "Moderate", "Minor"]
  {
    match severity
    case "Extreme" => Red
    case "Severe" => Orange
    case "Moderate" => Yellow
    case "Minor" => Green
    case _ => Gray
  }

  /** The severity word that selects a colour; grey is selected by no single word. */
  function SeverityWord(c: Color): (w: Option<string>)
    ensures w.None? <==> c == Gray
  {
    match c
    case Red => Some("Extreme")
    case Orange => Some("Severe")
    case Yellow => Some("Moderate")
    case Green => Some("Minor")
    case Gray => None
  }

  /** Every colour other than grey comes from exactly one severity word. */
  lemma SeverityColorInvertible(severity: string, c: Color)
    ensures c != Gray ==> SeverityColor(SeverityWord(c).value) == c
    ensures SeverityColor(severity) != Gray ==>
              SeverityWord(SeverityColor(severity)) == Some(severity)
  {
  }

  /** The match is case-sensitive and the empty string is not a severity. */
  lemma SeverityColorIsCaseSensitive()
    ensures SeverityColor("extreme") == Gray
    ensures SeverityColor("EXTREME") == Gray
    ensures SeverityColor("") == Gray
    ensures SeverityColor("Unknown") == Gray
  {
  }

  // ---------------------------------------------------------------------------------------
  // The location delegate

  /** `CLAuthorizationStatus`; `FutureStatus` stands for the cases of `@unknown default`. */
  datatype AuthorizationStatus =
    NotDetermined | Restricted | Denied | AuthorizedWhenInUse | AuthorizedAlways | FutureStatus

  const DeniedMessage: string :=
    "Location access is restricted or denied. Please enable it in Settings."

  /** The `LocationManager` of ContentView.swift. `calls` records, in order, the requests the
      delegate has sent to its `CLLocationManager`. */
  class LocationManager {
    var location: Option<Coordinate>
    var showAlert: bool
    var errorMessage: string
    var calls: seq<ManagerCall>

    /** `init` asks for permission and for a first fix. */
    constructor ()
      ensures location == None && !showAlert && errorMessage == ""
      ensures calls == [RequestWhenInUseAuthorization, RequestLocation]
    {
      location := None;
      showAlert := false;
      errorMessage := "";
      calls := [RequestWhenInUseAuthorization, RequestLocation];
    }

    /** Keeps the LAST location of a non-empty update and stops updating; an empty update
        changes nothing. */
    method DidUpdateLocations(locations: seq<Coordinate>)
      modifies this
      ensures locations != [] ==> location == Some(locations[|locations| - 1])
      ensures locations != [] ==> calls == old(calls) + [StopUpdatingLocation]
      ensures locations == [] ==> location == old(location) && calls == old(calls)
      ensures showAlert == old(showAlert) && errorMessage == old(errorMessage)
    {
      if locations != [] {
        location := Some(locations[|locations| - 1]);
        calls := calls + [StopUpdatingLocation];
      }
    }

    /** A failure shows the error's description in the alert. */
    method DidFailWithError(description: string)
      modifies this
      ensures errorMessage == description && showAlert
      ensures location == old(location) && calls == old(calls)
    {
      errorMessage := description;
      showAlert := true;
    }

    /** Restricted or denied access raises the fixed message; not-yet-determined asks for
        permission again; granted access asks for a fix; anything else is ignored. Only the
        restricted/denied branch touches the error state. */
    method DidChangeAuthorization(status: AuthorizationStatus)
      modifies this
      ensures status in {Restricted, Denied} ==> errorMessage == DeniedMessage && showAlert
      ensures status !in {Restricted, Denied} ==>
                errorMessage == old(errorMessage) && showAlert == old(showAlert)
      ensures calls == old(calls) + match status
        case NotDetermined => [RequestWhenInUseAuthorization]
        case AuthorizedWhenInUse => [RequestLocation]
        case AuthorizedAlways => [RequestLocation]
        case _ => []
      ensures location == old(location)
    {
      match status
      case NotDetermined =>
        calls := calls + [RequestWhenInUseAuthorization];
      case Restricted =>
        errorMessage := DeniedMessage;
        showAlert := true;
      case Denied =>
        errorMessage := DeniedMessage;
        showAlert := true;
      case AuthorizedWhenInUse =>
        calls := calls + [RequestLocation];
      case AuthorizedAlways =>
        calls := calls + [RequestLocation];
      case FutureStatus =>
    }
  }

  // ---------------------------------------------------------------------------------------
  // The screen's place name

  /** The screen state of `ContentView`. */
  class ContentView {
    const locationManager: LocationManager
    const weatherService: WeatherService
    var cityName: string
    var regionName: string
    var isLoading: bool

    constructor ()
      ensures cityName == "Unknown" && regionName == "Unknown" && isLoading
      ensures fresh(locationManager) && fresh(weatherService)
      ensures locationManager.location == None && weatherService.alerts == []
    {
      locationManager := new LocationManager();
      weatherService := new WeatherService();
      cityName := "Unknown";
      regionName := "Unknown";
      isLoading := true;
    }

    /** `onReceive(locationManager.$location)`: a published location starts a reverse
        geocode; a `nil` one does nothing. */
    method OnReceiveLocation()
      modifies this
      ensures locationManager.location.Some? ==> isLoading
      ensures locationManager.location.None? ==> isLoading == old(isLoading)
      ensures cityName == old(cityName) && regionName == old(regionName)
    {
      if locationManager.location.Some? {
        ReverseGeocode(locationManager.location.value);
      }
    }

    /** The synchronous part of `reverseGeocode`: the spinner is shown while the geocoder
        works. */
    method ReverseGeocode(location: Coordinate)
      modifies this
      ensures isLoading
      ensures cityName == old(cityName) && regionName == old(regionName)
    {
      isLoading := true;
    }

    /** The geocoder's callback for `location`. With a first placemark, each name is its
        field or "Unknown", independently, and an alert fetch is issued for the same
        coordinate (`fetch`); with none, both names are "Error" and nothing is fetched.
        The spinner is hidden either way. The fetch is issued here, so it always follows the
        geocode. */
    method GeocodeCompleted(location: Coordinate, placemarks: Option<seq<Placemark>>)
      returns (fetch: Option<Coordinate>)
      modifies this
      ensures FirstPlacemark(placemarks).Some? ==>
                var p := FirstPlacemark(placemarks).value;
                cityName == OrUnknown(p.locality) && regionName == OrUnknown(p.administrativeArea)
                && fetch == Some(location)
      ensures FirstPlacemark(placemarks).None? ==>
                cityName == "Error" && regionName == "Error" && fetch == None
      ensures !isLoading
    {
      match FirstPlacemark(placemarks) {
        case Some(placemark) =>
          cityName := OrUnknown(placemark.locality);
          regionName := OrUnknown(placemark.administrativeArea);
          fetch := Some(location);
        case None =>
          cityName := "Error";
          regionName := "Error";
          fetch := None;
      }
      isLoading := false;
    }
  }
}
