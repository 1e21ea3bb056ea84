/** The two severity screens of AlertSevarityView.swift (`AlertSeverityView` and
    `AlertSeverity`) and the `SeverityTextView` label they share. Each screen keeps its own
    copy of the severity colour and of the reverse-geocode step. */
module SeverityViews {
  import opened Common
  import opened Content

  /** `AlertSeverityView.severityColor(for:)`, the second copy of the colour match. */
  function ViewSeverityColor(severity: string): (c: Color)
    ensures c == SeverityColor(severity)
  {
    match severity
    case "Extreme" => Red
    case "Severe" => Orange
    case "Moderate" => Yellow
    case "Minor" => Green
    case _ => Gray
  }

  /** `SeverityTextView.severityColor(for:)`, the third copy. */
  function TextSeverityColor(severity: string): (c: Color)
    ensures c == SeverityColor(severity)
  {
    match severity
    case "Extreme" => Red
    case "Severe" => Orange
    case "Moderate" => Yellow
    case "Minor" => Green
    case _ => Gray
  }

  /** The text of `SeverityTextView`: the raw severity after a fixed prefix. */
  function SeverityLabel(severity: string): (text: string)
    ensures |text| == |SeverityPrefix| + |severity|
    ensures text[..|SeverityPrefix|] == SeverityPrefix
    ensures text[|SeverityPrefix|..] == severity
  {
    SeverityPrefix + severity
  }

  const SeverityPrefix: string := "Severity: "

  /** One alert as a screen lists it: an optional heading line, then a severity line drawn
      in the severity's colour. */
  datatype Row = Row(heading: Option<string>, severityText: string, color: Color)

  /** What a severity screen shows. */
  datatype Screen = Progress(caption: string) | NoAlerts(message: string) | Rows(rows: seq<Row>)

  const ProgressCaption: string := "Fetching weather alerts..."

  /** The body of `AlertSeverityView`: a spinner while loading, the empty-list message, or
      one row per alert holding its raw severity in its colour. */
  function AlertSeverityViewBody(isLoading: bool, alerts: seq<WeatherAlert>, locationName: string)
    : (s: Screen)
    ensures isLoading <==> s == Progress(ProgressCaption)
    ensures !isLoading && alerts == [] <==> s == NoAlerts("No weather alerts for " + locationName + ".")
    ensures s.Rows? <==> !isLoading && alerts != []
    ensures s.Rows? ==> |s.rows| == |alerts| && forall k :: 0 <= k < |alerts| ==>
              s.rows[k] == Row(None, alerts[k].severity, SeverityColor(alerts[k].severity))
  {
    if isLoading then Progress(ProgressCaption)
    else if alerts == [] then NoAlerts("No weather alerts for " + locationName + ".")
    else Rows(seq(|alerts|, k requires 0 <= k < |alerts| =>
                Row(None, alerts[k].severity, ViewSeverityColor(alerts[k].severity))))
  }

  /** The body of `AlertSeverity`: the same spinner and message; each row is "Weather Event: "
      and the headline, followed by a `SeverityTextView`. */
  function AlertSeverityBody(isLoading: bool, alerts: seq<WeatherAlert>, locationName: string)
    : (s: Screen)
    ensures isLoading <==> s == Progress(ProgressCaption)
    ensures !isLoading && alerts == [] <==> s == NoAlerts("No weather alerts for " + locationName + ".")
    ensures s.Rows? <==> !isLoading && alerts != []
    ensures s.Rows? ==> |s.rows| == |alerts| && forall k :: 0 <= k < |alerts| ==>
              s.rows[k] == Row(Some("Weather Event: " + alerts[k].headline),
                               SeverityLabel(alerts[k].severity), SeverityColor(alerts[k].severity))
  {
    if isLoading then Progress(ProgressCaption)
    else if alerts == [] then NoAlerts("No weather alerts for " + locationName + ".")
    else Rows(seq(|alerts|, k requires 0 <= k < |alerts| =>
                Row(Some("Weather Event: " + alerts[k].headline),
                    SeverityLabel(alerts[k].severity), TextSeverityColor(alerts[k].severity))))
  }

  /** The two screens show the same state the same way, up to the row texts: the same
      spinner, the same message, and rows of the same colours. */
  lemma ScreensAgree(isLoading: bool, alerts: seq<WeatherAlert>, locationName: string)
    ensures var a := AlertSeverityViewBody(isLoading, alerts, locationName);
            var b := AlertSeverityBody(isLoading, alerts, locationName);
            a.Rows? == b.Rows? && (!a.Rows? ==> a == b) &&
            (a.Rows? ==>
               |a.rows| == |b.rows| &&
               forall k :: 0 <= k < |a.rows| ==> a.rows[k].color == b.rows[k].color)
  {
  }

  /** `AlertSeverityView`'s state. */
  class AlertSeverityView {
    const weatherService: WeatherService
    const locationManager: LocationManager
    var locationName: string
    var isLoading: bool

    constructor ()
      ensures locationName == "Unknown" && isLoading
      ensures fresh(weatherService) && fresh(locationManager)
      ensures weatherService.alerts == [] && locationManager.location == None
    {
      weatherService := new WeatherService();
      locationManager := new LocationManager();
      locationName := "Unknown";
      isLoading := true;
    }

    /** `onAppear` and `onReceive(locationManager.$location)` run the same code: a known
        location starts a reverse geocode. */
    method OnReceiveLocation()
      modifies this
      ensures locationManager.location.Some? ==> isLoading
      ensures locationManager.location.None? ==> isLoading == old(isLoading)
      ensures locationName == old(locationName)
    {
      if locationManager.location.Some? {
        ReverseGeocode(locationManager.location.value);
      }
    }

    method ReverseGeocode(location: Coordinate)
      modifies this
      ensures isLoading && locationName == old(locationName)
    {
      isLoading := true;
    }

    /** The geocoder's callback: the locality or "Unknown" and a fetch for the same
        coordinate, or "Error" and no fetch; the spinner ends either way. */
    method GeocodeCompleted(location: Coordinate, placemarks: Option<seq<Placemark>>)
      returns (fetch: Option<Coordinate>)
      modifies this
      ensures FirstPlacemark(placemarks).Some? ==>
                locationName == OrUnknown(FirstPlacemark(placemarks).value.locality)
                && fetch == Some(location)
      ensures FirstPlacemark(placemarks).None? ==> locationName == "Error" && fetch == None
      ensures !isLoading
    {
      match FirstPlacemark(placemarks) {
        case Some(placemark) =>
          locationName := OrUnknown(placemark.locality);
          fetch := Some(location);
        case None =>
          locationName := "Error";
          fetch := None;
      }
      isLoading := false;
    }
  }

  /** `AlertSeverity`'s state: the same fields and the same reverse-geocode step. */
  class AlertSeverity {
    const weatherService: WeatherService
    const locationManager: LocationManager
    var locationName: string
    var isLoading: bool

    constructor ()
      ensures locationName == "Unknown" && isLoading
      ensures fresh(weatherService) && fresh(locationManager)
      ensures weatherService.alerts == [] && locationManager.location == None
    {
      weatherService := new WeatherService();
      locationManager := new LocationManager();
      locationName := "Unknown";
      isLoading := true;
    }

    method OnReceiveLocation()
      modifies this
      ensures locationManager.location.Some? ==> isLoading
      ensures locationManager.location.None? ==> isLoading == old(isLoading)
      ensures locationName == old(locationName)
    {
      if locationManager.location.Some? {
        ReverseGeocode(locationManager.location.value);
      }
    }

    method ReverseGeocode(location: Coordinate)
      modifies this
      ensures isLoading && locationName == old(locationName)
    {
      isLoading := true;
    }

    method GeocodeCompleted(location: Coordinate, placemarks: Option<seq<Placemark>>)
      returns (fetch: Option<Coordinate>)
      modifies this
      ensures FirstPlacemark(placemarks).Some? ==>
                locationName == OrUnknown(FirstPlacemark(placemarks).value.locality)
                && fetch == Some(location)
      ensures FirstPlacemark(placemarks).None? ==> locationName == "Error" && fetch == None
      ensures !isLoading
    {
      match FirstPlacemark(placemarks) {
        case Some(placemark) =>
          locationName := OrUnknown(placemark.locality);
          fetch := Some(location);
        case None =>
          locationName := "Error";
          fetch := None;
      }
      isLoading := false;
    }
  }
}
