# Tempest: a verified model of the app's screen and manager logic

Tempest is an iOS weather-safety app. It locates the user and names the place by reverse geocoding.
It fetches the active alerts of api.weather.gov and paints each one by its severity. It shows the
current conditions from weatherapi.com and keeps an emergency checklist. It also drops map markers
on nearby hotels and frames them with the camera.

Almost all of the app is SwiftUI layout. This project models the sequential, statable logic that is
spread through its views and managers, with one Dafny module per Swift file:

| module | Swift file | what it holds |
|---|---|---|
| `Common` | shared | `Option`, `Result`, coordinates, placemarks, `placemarks?.first`, `?? "Unknown"` |
| `Content` | ContentView.swift | alert feed decoding in `WeatherService`, `severityColor`, the screen's reverse geocode, the `LocationManager` delegate |
| `SeverityViews` | AlertSevarityView.swift | the other two `severityColor` copies, the `SeverityTextView` label, both screens' bodies and reverse geocodes |
| `NoaaAlerts` | Severity.swift | `WeatherViewModel`'s replace-on-failure pipeline, the rows of `WeatherAlertView` |
| `LocationSearch` | LocationSearchViewModel.swift | the lookup query, first-or-nil lookup, query forwarding, result replacement |
| `WeatherDescription` | WeatherDescriptionView.swift | first-alert description selection and the reverse geocode |
| `DeviceLocation` | LocationManager.swift | the `locationManager` class with `isLoading`, latitude and longitude |
| `WeatherApi` | WeatherAPIManager.swift | the response branches of `fetchWeather` |
| `Dashboard` | SwiftUIView.swift | the checklist, the current-conditions panel, the fetches on a latitude change |
| `EvacuationMap` | EvacuationMapView.swift | the hotel join and the bounding-box camera region |

Each state-holding Swift object is a Dafny `class` whose methods update its fields; the pure branches
are functions. Platform calls are not modelled. Their outcomes arrive as parameters:

- `URL(string:)` succeeding is `urlOk: bool`.
- A data task's body is `Option<Result<T>>`: `None` when no body arrived, otherwise the decoder's outcome on it.
- A transport error is `Option<string>`, the error's description.
- The geocoder's answer is `Option<seq<Placemark>>`.
- `MKLocalSearch` is a function from query to an optional list of map items.
- The order in which asynchronous lookups complete is an input sequence.
- `UUID()` is a counter field that hands out fresh ids.

The geocoder's completion and the completer's delegate calls are methods of their own. For example,
`ReverseGeocode` shows the spinner, and `GeocodeCompleted` is the geocoder's completion, which returns
the coordinate of the alert fetch it issues, if any. The three data-task fetches
(`WeatherService.fetchWeatherAlerts`, `WeatherViewModel.fetchWeatherAlerts`,
`WeatherAPIManager.fetchWeather`) are each one method that takes the request's outcome and applies its
callback at once. In the same way `HotelLookupsSettled`, the delayed block of `searchForHotels`,
issues the lookups and applies their completions and the group's `notify` at once, in a given
completion order. `Double` coordinates are modelled as `real`.

Facts about the code that the contracts make explicit:

- The alert fetch is issued only in the geocoder's success branch, so it always follows the geocode
  (ContentView.swift:157-162, AlertSevarityView.swift:57-61 and 148-152, WeatherDescriptionView.swift:47-51).
- A geocode with no placemark writes "Error" (ContentView.swift:163-165); "Unknown" is only the
  fallback for a missing field of a placemark that exists (ContentView.swift:158-159).
- `WeatherService` keeps the previous list on a missing body or a decode error (ContentView.swift:38-46);
  `WeatherViewModel` replaces the list by `[]` after any failure (Severity.swift:26-29).

## Model

| member | source | states |
|---|---|---|
| Common.FirstPlacemark | ContentView.swift:157 | the first placemark: absent exactly when the geocoder gave no array or an empty one, otherwise element 0 |
| Common.OrUnknown | ContentView.swift:158-159 | a present placemark field verbatim, otherwise "Unknown" |
| Content.Properties | ContentView.swift:42 | one alert per feature, in feed order, each the feature's `properties` record (the record's own id kept, the feature id dropped) |
| Content.WeatherService.constructor | ContentView.swift:31 | the alert list starts empty |
| Content.WeatherService.FetchWeatherAlerts | ContentView.swift:33-51 | only a successful decode changes the list, to the features' properties; a bad URL, a missing body or a decode error leaves the previous list in place |
| Content.SeverityColor | ContentView.swift:137-150 | red, orange, yellow and green each exactly for "Extreme", "Severe", "Moderate" and "Minor"; gray exactly for every other string |
| Content.SeverityColorInvertible | ContentView.swift:137-150 | each non-gray colour comes from exactly one severity word, and a non-gray severity is that word |
| Content.SeverityColorIsCaseSensitive | ContentView.swift:138-148 | "extreme", "EXTREME", "" and "Unknown" are all gray: the match is exact and case-sensitive |
| Content.LocationManager.constructor | ContentView.swift:182-188 | no location, no alert, empty message; permission and then a first fix are requested |
| Content.LocationManager.DidUpdateLocations | ContentView.swift:190-195 | a non-empty update keeps the LAST location and stops updating; an empty one changes nothing; the error state is untouched |
| Content.LocationManager.DidFailWithError | ContentView.swift:197-201 | the alert shows the error's description; the location is kept |
| Content.LocationManager.DidChangeAuthorization | ContentView.swift:203-215 | restricted or denied sets the fixed message and raises the alert; any other status leaves the error state alone; not-determined re-requests permission, authorized requests a fix, an unknown status does nothing |
| Content.ContentView.constructor | ContentView.swift:55-59 | both names "Unknown", spinner shown, no location and no alerts yet |
| Content.ContentView.OnReceiveLocation | ContentView.swift:126-130 | a published location starts a reverse geocode; a nil one changes nothing |
| Content.ContentView.ReverseGeocode | ContentView.swift:152-154 | the spinner is shown on entry; the names are not touched |
| Content.ContentView.GeocodeCompleted | ContentView.swift:155-170 | with a placemark, city and region are each their field or "Unknown", independently, and one fetch for the same coordinate is issued; without one both are "Error" and nothing is fetched; the spinner ends either way |
| SeverityViews.ViewSeverityColor | AlertSevarityView.swift:71-84 | the second copy of the colour match agrees with the first on every string |
| SeverityViews.TextSeverityColor | AlertSevarityView.swift:173-186 | the third copy agrees with the first on every string |
| SeverityViews.SeverityLabel | AlertSevarityView.swift:167 | the label is "Severity: " followed by the raw severity, verbatim |
| SeverityViews.AlertSeverityViewBody | AlertSevarityView.swift:10-31 | a spinner exactly while loading; "No weather alerts for <name>." exactly when loaded with no alerts; otherwise one row per alert with its raw severity in its colour |
| SeverityViews.AlertSeverityBody | AlertSevarityView.swift:100-122 | the same spinner and message; each row is "Weather Event: " plus the headline over the severity label, in the severity's colour |
| SeverityViews.ScreensAgree | AlertSevarityView.swift:12-29 | on the same state both screens show the same spinner or message, or equally many rows of the same colours |
| SeverityViews.AlertSeverityView.constructor | AlertSevarityView.swift:5-8 | name "Unknown", spinner shown, no location and no alerts yet |
| SeverityViews.AlertSeverityView.OnReceiveLocation | AlertSevarityView.swift:32-42 | a known location starts a reverse geocode; a nil one changes nothing |
| SeverityViews.AlertSeverityView.ReverseGeocode | AlertSevarityView.swift:52-54 | the spinner is shown on entry; the name is kept |
| SeverityViews.AlertSeverityView.GeocodeCompleted | AlertSevarityView.swift:55-68 | the locality or "Unknown" plus a fetch for the same coordinate, or "Error" and no fetch; the spinner ends either way |
| SeverityViews.AlertSeverity.constructor | AlertSevarityView.swift:95-98 | name "Unknown", spinner shown, no location and no alerts yet |
| SeverityViews.AlertSeverity.OnReceiveLocation | AlertSevarityView.swift:123-133 | a known location starts a reverse geocode; a nil one changes nothing |
| SeverityViews.AlertSeverity.ReverseGeocode | AlertSevarityView.swift:143-145 | the spinner is shown on entry; the name is kept |
| SeverityViews.AlertSeverity.GeocodeCompleted | AlertSevarityView.swift:146-159 | the same outcome as the other screen's copy |
| NoaaAlerts.ReplaceError | Severity.swift:23-26 | a decoded response passes through; any failure becomes a feed with no features |
| NoaaAlerts.WeatherViewModel.constructor | Severity.swift:15 | the alert list starts empty |
| NoaaAlerts.WeatherViewModel.FetchWeatherAlerts | Severity.swift:18-32 | a bad URL changes nothing; otherwise the list is replaced wholesale, by exactly the decoded features in order, or by `[]` after any failure |
| NoaaAlerts.AlertLines | Severity.swift:52-65 | title, description, "Severity: ", "Area: " lines always; the fifth "Instructions: " line exactly when an instruction is present |
| LocationSearch.LookupQuery | LocationSearchViewModel.swift:24 | the query is the title followed directly by the subtitle, no separator |
| LocationSearch.GetLocation | LocationSearchViewModel.swift:22-34 | the first map item of the response to that query; nil exactly when there is no response or it is empty |
| LocationSearch.OpenInMaps | LocationSearchViewModel.swift:36-45 | nothing is launched exactly when the lookup yields nil; otherwise driving directions to the found item |
| LocationSearch.LocationSearchViewModel.constructor | LocationSearchViewModel.swift:6-20 | no results, and the empty fragment handed to the completer |
| LocationSearch.LocationSearchViewModel.SetQueryFragment | LocationSearchViewModel.swift:9-13 | the completer receives the identical fragment; results are untouched |
| LocationSearch.LocationSearchViewModel.CompleterDidUpdateResults | LocationSearchViewModel.swift:49-53 | the results are replaced wholesale by the completer's |
| LocationSearch.LocationSearchViewModel.CompleterDidFail | LocationSearchViewModel.swift:55-57 | a completer failure changes no state |
| WeatherDescription.DescriptionText | WeatherDescriptionView.swift:12-29 | no text exactly while loading; with no alert "No alerts for <city>."; otherwise the first alert's description verbatim, or "No description available for <city>." |
| WeatherDescription.OnlyFirstAlertConsulted | WeatherDescriptionView.swift:15 | lists that agree on their first alert give the same text |
| WeatherDescription.WeatherDescriptionView.constructor | WeatherDescriptionView.swift:5-8 | city "Unknown", spinner shown |
| WeatherDescription.WeatherDescriptionView.OnReceiveLocation | WeatherDescriptionView.swift:32-36 | a published location starts a reverse geocode; a nil one changes nothing |
| WeatherDescription.WeatherDescriptionView.ReverseGeocode | WeatherDescriptionView.swift:42-44 | the spinner is shown on entry |
| WeatherDescription.WeatherDescriptionView.GeocodeCompleted | WeatherDescriptionView.swift:45-58 | the locality or "Unknown" plus a fetch for the same coordinate, or "Error" and no fetch; the spinner ends either way |
| DeviceLocation.LocationManager.Valid | LocationManager.swift:8-9 | latitude and longitude are both nil or both read from the same location |
| DeviceLocation.LocationManager.constructor | LocationManager.swift:12-16 | no coordinates, not loading, only permission requested |
| DeviceLocation.LocationManager.RequestLocation | LocationManager.swift:18-21 | loading is set and a fix is requested; the coordinates are kept |
| DeviceLocation.LocationManager.DidUpdateLocations | LocationManager.swift:23-29 | a non-empty update publishes the FIRST location's coordinates; loading is cleared even for an empty update |
| DeviceLocation.LocationManager.DidFailWithError | LocationManager.swift:31-34 | loading is cleared and the coordinates are kept |
| WeatherApi.FailureMessage | WeatherAPIManager.swift:34-59 | a transport error first gives "Error: " plus its description; then a missing body gives "No data received"; then a decode error gives "Error decoding data: " plus its description; no message exactly when the decode succeeds |
| WeatherApi.WeatherApiManager.constructor | WeatherAPIManager.swift:23-25 | no data, no alerts, no message |
| WeatherApi.WeatherApiManager.FetchWeather | WeatherAPIManager.swift:29-62 | a bad URL changes nothing; a failure sets the message and leaves the conditions; a success sets the conditions and leaves an earlier message; the alerts are never written |
| Dashboard.FirstIndex | SwiftUIView.swift:136 | the least index holding the id, or none when no item holds it |
| Dashboard.Toggled | SwiftUIView.swift:127-131 | only the target's check flag flips; its name and id and every other item are unchanged |
| Dashboard.ToggleTwiceRestores | SwiftUIView.swift:129-131 | tapping the same box twice restores the list |
| Dashboard.RemoveFirst | SwiftUIView.swift:135-138 | an absent id leaves the list alone; otherwise the first item with the id is dropped, length falls by one, order is kept, and the multiset loses just that item |
| Dashboard.RemoveFirstDeletesOnlyThatItem | SwiftUIView.swift:135-138 | with distinct ids, the rest is exactly the items with other ids, and ids stay distinct |
| Dashboard.SwiftUIView.constructor | SwiftUIView.swift:14-21 | the three named items, unchecked, in the listed order, with distinct ids; sheet closed |
| Dashboard.SwiftUIView.ToggleItem | SwiftUIView.swift:125-131 | the checklist becomes the toggled list; ids stay distinct |
| Dashboard.SwiftUIView.RemoveItem | SwiftUIView.swift:135-138 | the checklist becomes the list with the first matching item removed; ids stay distinct |
| Dashboard.SwiftUIView.ShowAddItemSheet | SwiftUIView.swift:116-118 | the sheet opens; the checklist is unchanged |
| Dashboard.SwiftUIView.AddItem | SwiftUIView.swift:178-183 | an empty name changes nothing and the sheet stays open; otherwise exactly one unchecked item with that name and a fresh id is appended, earlier items unchanged, sheet closed |
| Dashboard.SwiftUIView.CancelAddItem | SwiftUIView.swift:188-190 | the sheet closes; the checklist is unchanged |
| Dashboard.CurrentConditions | SwiftUIView.swift:53-68 | conditions exactly when data exists, even with a message set; "Error: " plus the message exactly when there is no data but a message; otherwise "Loading..." |
| Dashboard.TransportErrorShownWithPrefixTwice | SwiftUIView.swift:64-65 | a transport error reaches the panel as "Error: Error: " plus its description |
| Dashboard.FetchOnLatitudeChange | SwiftUIView.swift:76-80 | once the change handler runs, both fetches start, for the same coordinate, exactly when latitude and longitude are both known |
| EvacuationMap.Bounds | EvacuationMapView.swift:65-75 | the min/max fold gives the bounding box: it holds every point, and each bound is attained by some point |
| EvacuationMap.BoundingBoxUnique | EvacuationMapView.swift:65-75 | a set of points has only one such box, so the loop agrees with the fold |
| EvacuationMap.FitRegion | EvacuationMapView.swift:77-85 | the centre is equidistant from opposite bounds, so inside the box when the box is non-empty; each span is 1.5 times the box's extent on its axis |
| EvacuationMap.FitRegionFramesBox | EvacuationMapView.swift:77-85 | the fitted region is centred inside the box, its spans are 1.5 times the extents and not negative, and every point of the box lies within a third of a span of the centre |
| EvacuationMap.FitRegionFramesPoints | EvacuationMapView.swift:77-85 | for the annotations' own box: centre inside, padded non-negative spans, every annotation within a third of a span of the centre |
| EvacuationMap.CoincidentPointsRegion | EvacuationMapView.swift:82-85 | all-coincident points, one point included, give span zero centred on the point |
| EvacuationMap.TwoHotelsRegion | EvacuationMapView.swift:77-85 | a worked case: (40.70, -74.00) and (40.72, -73.98) give centre (40.71, -73.99) and spans 0.03 |
| EvacuationMap.Succeeded | EvacuationMapView.swift:40-53 | the completion-order indices kept by the join are lookups that returned an item |
| EvacuationMap.Joined | EvacuationMapView.swift:37-53 | the joined list is one annotation per kept index, in completion order, each with the completion's title, the item's coordinate and the next id |
| EvacuationMap.SucceededOncePerSuccess | EvacuationMapView.swift:40-53 | over any completion order, each successful lookup is kept exactly once and nothing else is kept |
| EvacuationMap.JoinCount | EvacuationMapView.swift:40-53 | the join has exactly as many annotations as there are completions whose lookup returned an item |
| EvacuationMap.JoinKeepsEverySuccess | EvacuationMapView.swift:43-49 | every successful lookup has its annotation in the join, with its title and coordinate |
| EvacuationMap.JoinHoldsOnlySuccesses | EvacuationMapView.swift:42-51 | every annotation comes from a successful lookup; failed lookups leave no trace |
| EvacuationMap.JoinedIdsDistinct | EvacuationMapView.swift:44-45 | the annotations' ids are consecutive fresh ids, so no two are equal |
| EvacuationMap.EvacuationMapView.constructor | EvacuationMapView.swift:5-7 | camera on the user's location, no annotations, an empty search model |
| EvacuationMap.EvacuationMapView.SearchForHotels | EvacuationMapView.swift:33-34 | the query fragment, and the completer's, become "Hotels" |
| EvacuationMap.EvacuationMapView.HotelLookupsSettled | EvacuationMapView.swift:36-58 | the annotations are replaced wholesale by the join over the completion order, and the camera is fitted to that new list |
| EvacuationMap.EvacuationMapView.ZoomToFitAnnotations | EvacuationMapView.swift:62-92 | no annotations leave the camera alone; otherwise the camera shows the region fitted to the annotations' bounding box |

## Left out

- Platform calls: URLSession, JSONDecoder, CLGeocoder, CLLocationManager, MKLocalSearch, MKLocalSearchCompleter and `openInMaps` are foreign code. Their outcomes are parameters, and the requests sent to a `CLLocationManager` are recorded as a list.
- Concurrency and timing: main-queue hops, the `DispatchGroup` barrier and the one-second `asyncAfter` of `searchForHotels`. The join is a fold in a given completion order, so only its count and membership are claimed, not the order of `viewModel.results`. A callback that runs after its screen is gone (`[weak self]`) is not modelled.
- EvacuationMap.EvacuationMapView.HotelLookupsSettled: takes `viewModel.results` as they are when the delayed block runs. Results the completer publishes during the one-second wait are not ordered against it.
- Wiring fetches to their services: `GeocodeCompleted` and `FetchOnLatitudeChange` return the coordinate of the fetch they issue. The fetch itself is `FetchWeatherAlerts` or `FetchWeather`, applied to the outcome delivered later.
- IEEE `Double` arithmetic in the bounding box is modelled with `real`, so rounding is not captured. The `Double`-to-string formatting of URLs and the `%.0f` and `capitalized` display formatting are not modelled either.
- SwiftUI presentation: layout, fonts, gradients, shadows, the map markers, and the `GeometryReader` padding.
- Alert dismissal: SwiftUI resets `showAlert` through the `.alert(isPresented:)` binding. No model method stands for that.
- The location request on the dashboard's `onAppear` is `DeviceLocation.LocationManager.RequestLocation`; SwiftUI's call of it is not modelled. The `requestWhenInUseAuthorization` that `EvacuationMapView` sends from a throwaway `CLLocationManager` is not modelled either.
- Fields the code declares but never uses: `mapRegion` in EvacuationMapView.swift and `selectedLocation` in LocationSearchViewModel.swift. The completer's `resultTypes = .pointOfInterest` filter is part of the platform search.
- ShelterListView (LocationSearchViewModel.swift:60-98): a list whose only logic is setting `queryFragment` (`SetQueryFragment`) and calling `openInMaps` (`OpenInMaps`).
- The fixed coordinates (40.7128, -74.0060) that `WeatherAlertView` requests on appearing (Severity.swift:70-72): a constant passed to `NoaaAlerts.WeatherViewModel.FetchWeatherAlerts`.
- Dashboard.FetchOnLatitudeChange: models the body of the `onChange(of: latitude)` handler only. The handler runs only when `latitude` changes (SwiftUIView.swift:75), so a new fix with the same latitude and a new longitude starts no fetch; deciding when SwiftUI runs the handler is not modelled.
- The `print` diagnostics (ContentView.swift:45,166,200; AlertSevarityView.swift:64,155; WeatherDescriptionView.swift:54; LocationManager.swift:33; LocationSearchViewModel.swift:56) and the `desiredAccuracy` setting (ContentView.swift:185) change no modelled state.
- Map.swift, MapView.swift, EvacuationView.swift, CircEvacMapView.swift and someView.swift: presentation or view composition with no state logic.
- CustomTabView.swift, NOAAView.swift and WeatherView.swift: screens outside the modelled ones. They hold tab switching (`selectedTab`, CustomTabView.swift:4-34) and copies of logic modelled elsewhere: a checklist toggle (NOAAView.swift:126), fetches for fixed coordinates (NOAAView.swift:87, WeatherView.swift:17) and the conditions/error/loading branch (WeatherView.swift:8-14, as in `Dashboard.CurrentConditions`).
- NOAA MODEL.swift (`WeatherManager`, which only NOAAView.swift uses): outside the modelled screens and managers. It is a variant of the `fetchWeather` branches that `WeatherApi.FailureMessage` models.
- UUIDs: fresh ids come from a counter, so only their freshness and distinctness are modelled.
