/** WeatherAPIManager.swift: current conditions from weatherapi.com. Each branch of the data
    task's callback sets either the decoded conditions or an error message. */
module WeatherApi {
  import opened Common

  datatype WeatherCondition = WeatherCondition(text: string)

  /** The `current` object; `tempF` and `windMph` are the JSON keys `temp_f` and `wind_mph`. */
  datatype CurrentWeather = CurrentWeather(
    tempF: real, condition: WeatherCondition, windMph: real, windDir: string)

  datatype WeatherData = WeatherData(current: CurrentWeather)

  /** The nested `WeatherAlert` of the manager; `id` stands for its `UUID`. */
  datatype ApiAlert = ApiAlert(id: nat, headline: string, severity: string)

  /** The error message each failed branch publishes, checked in this order: a transport
      error, a missing body, a body the decoder rejects. `None` when the decode succeeds. */
  function FailureMessage(error: Option<string>, data: Option<Result<WeatherData>>)
    : (message: Option<string>)
    ensures error.Some? ==> message == Some("Error: " + error.value)
    ensures error.None? && data.None? ==> message == Some("No data received")
    ensures error.None? && data.Some? && data.value.Err? ==>
              message == Some("Error decoding data: " + data.value.description)
    ensures message.None? <==> error.None? && data.Some? && data.value.Ok?
  {
    match error
    case Some(e) => Some("Error: " + e)
    case None =>
      match data
      case None => Some("No data received")
      case Some(Err(d)) => Some("Error decoding data: " + d)
      case Some(Ok(_)) => None
  }

  class WeatherApiManager {
    var weatherData: Option<WeatherData>
    /** Declared and published, never written by the manager. */
    var alerts: seq<ApiAlert>
    var errorMessage: Option<string>

    constructor ()
      ensures weatherData.None? && alerts == [] && errorMessage.None?
    {
      weatherData := None;
      alerts := [];
      errorMessage := None;
    }

    /** `fetchWeather(latitude:longitude:)` with its callback. `urlOk` is whether
        `URL(string:)` accepted the request; `error` is the task's error description; `data`
        is `None` when no body arrived and otherwise the decoder's outcome on it.
        A success sets the conditions and leaves an earlier error message in place; a failure
        sets the message and leaves the conditions in place. */
    method FetchWeather(urlOk: bool, error: Option<string>, data: Option<Result<WeatherData>>)
      modifies this
      ensures !urlOk ==> weatherData == old(weatherData) && errorMessage == old(errorMessage)
      ensures urlOk && FailureMessage(error, data).Some? ==>
                errorMessage == FailureMessage(error, data) && weatherData == old(weatherData)
      ensures urlOk && FailureMessage(error, data).None? ==>
                weatherData == Some(data.value.value) && errorMessage == old(errorMessage)
      ensures alerts == old(alerts)
    {
      if !urlOk {
        return;
      }
      if error.Some? {
        errorMessage := Some("Error: " + error.value);
        return;
      }
      if data.None? {
        errorMessage := Some("No data received");
        return;
      }
      match data.value {
        case Ok(weatherResponse) =>
          weatherData := Some(weatherResponse);
        case Err(description) =>
          errorMessage := Some("Error decoding data: " + description);
      }
    }
  }
}
