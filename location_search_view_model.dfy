/** LocationSearchViewModel.swift: the autocomplete view model. It forwards the query
    fragment to its `MKLocalSearchCompleter`, publishes the completer's results, and resolves
    one completion to a map item with an `MKLocalSearch`. */
module LocationSearch {
  import opened Common

  /** `MKLocalSearchCompletion`. */
  datatype Completion = Completion(title: string, subtitle: string)

  /** `MKMapItem`, of which the model keeps its placemark's coordinate. */
  datatype MapItem = MapItem(coordinate: Coordinate)

  /** The platform search: the map items of the response to a natural-language query, or
      `None` when the search gave no response. */
  type LocalSearch = string -> Option<seq<MapItem>>

  /** The query of the lookup request: the title with the subtitle appended, no separator. */
  function LookupQuery(result: Completion): (query: string)
    ensures |query| == |result.title| + |result.subtitle|
    ensures query[..|result.title|] == result.title
    ensures query[|result.title|..] == result.subtitle
  {
    result.title + result.subtitle
  }

  /** `getLocation(for:completion:)`: the first map item of the response to the lookup query,
      or `nil` when there is no response or it holds no item. */
  function GetLocation(result: Completion, search: LocalSearch): (item: Option<MapItem>)
    ensures item.None? <==> search(LookupQuery(result)).None? || search(LookupQuery(result)).value == []
    ensures item.Some? ==> item.value == search(LookupQuery(result)).value[0]
  {
    match search(LookupQuery(result))
    case None => None
    case Some(items) => if items == [] then None else Some(items[0])
  }

  datatype DirectionsMode = Driving

  /** An `openInMaps(launchOptions:)` request. */
  datatype MapsLaunch = MapsLaunch(item: MapItem, mode: DirectionsMode)

  /** `openInMaps(result:)`: the launch it performs, or `None` (nothing happens) when the
      lookup yields nil. */
  function OpenInMaps(result: Completion, search: LocalSearch): (launch: Option<MapsLaunch>)
    ensures launch.None? <==> GetLocation(result, search).None?
    ensures launch.Some? ==> launch.value == MapsLaunch(GetLocation(result, search).value, Driving)
  {
    match GetLocation(result, search)
    case None => None
    case Some(item) => Some(MapsLaunch(item, Driving))
  }

  class LocationSearchViewModel {
    var results: seq<Completion>
    var queryFragment: string
    /** The `queryFragment` of the private `searchCompleter`. */
    var completerQueryFragment: string

    /** `init` hands the (empty) fragment to the completer. */
    constructor ()
      ensures results == [] && queryFragment == "" && completerQueryFragment == ""
    {
      results := [];
      queryFragment := "";
      completerQueryFragment := "";
    }

    /** Assigning `queryFragment`; its `didSet` forwards the identical string. */
    method SetQueryFragment(fragment: string)
      modifies this
      ensures queryFragment == fragment && completerQueryFragment == fragment
      ensures results == old(results)
    {
      queryFragment := fragment;
      completerQueryFragment := queryFragment;
    }

    /** `completerDidUpdateResults`: the completer's results replace the published ones. */
    method CompleterDidUpdateResults(completerResults: seq<Completion>)
      modifies this
      ensures results == completerResults
      ensures queryFragment == old(queryFragment)
      ensures completerQueryFragment == old(completerQueryFragment)
    {
      results := completerResults;
    }

    /** `completer(_:didFailWithError:)` only logs. */
    method CompleterDidFail(description: string)
      ensures unchanged(this)
    {
    }
  }
}
