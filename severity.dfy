/** Severity.swift: the `NOAAAlert` record, `WeatherViewModel`, whose Combine pipeline
    replaces every failure by an empty feed, and the rows of `WeatherAlertView`. */
module NoaaAlerts {
  import opened Common

  datatype NoaaAlert = NoaaAlert(
    id: string,
    title: string,
    description: string,
    severity: string,
    areaDesc: string,
    instruction: Option<string>)

  datatype AlertsResponse = AlertsResponse(features: seq<NoaaAlert>)

  /** `.replaceError(with: AlertsResponse(features: []))`: a transport or decode failure
      (the `Err` of the data-task publisher followed by `.decode`) becomes an empty feed. */
  function ReplaceError(outcome: Result<AlertsResponse>): (response: AlertsResponse)
    ensures outcome.Ok? ==> response == outcome.value
    ensures outcome.Err? ==> response.features == []
  {
    match outcome
    case Ok(r) => r
    case Err(_) => AlertsResponse([])
  }

  class WeatherViewModel {
    var alerts: seq<NoaaAlert>

    constructor ()
      ensures alerts == []
    {
      alerts := [];
    }

    /** `fetchWeatherAlerts(lat:lon:)` with the value its sink receives. When `URL(string:)`
        fails nothing is requested and nothing changes; otherwise the list is replaced
        wholesale, by the decoded features or, after any failure, by `[]`. */
    method FetchWeatherAlerts(urlOk: bool, outcome: Result<AlertsResponse>)
      modifies this
      ensures !urlOk ==> alerts == old(alerts)
      ensures urlOk && outcome.Ok? ==> alerts == outcome.value.features
      ensures urlOk && outcome.Err? ==> alerts == []
    {
      if !urlOk {
        return;
      }
      var response := ReplaceError(outcome);
      alerts := response.features;
    }
  }

  /** The text lines of one row of `WeatherAlertView`. */
  function AlertLines(alert: NoaaAlert): (lines: seq<string>)
    ensures |lines| == 5 <==> alert.instruction.Some?
    ensures |lines| == 4 <==> alert.instruction.None?
    ensures lines[..4] == [alert.title, alert.description,
                           "Severity: " + alert.severity, "Area: " + alert.areaDesc]
    ensures alert.instruction.Some? ==> lines[4] == "Instructions: " + alert.instruction.value
  {
    [alert.title, alert.description, "Severity: " + alert.severity, "Area: " + alert.areaDesc]
    + match alert.instruction
      case Some(instruction) => ["Instructions: " + instruction]
      case None => []
  }
}
