/** EvacuationMapView.swift: the hotel search that joins the completer's results with one
    lookup each, and the camera region that frames the resulting annotations. */
module EvacuationMap {
  import opened Common
  import opened LocationSearch

  /** `HotelAnnotation`; `id` stands for its `UUID`. */
  datatype HotelAnnotation = HotelAnnotation(id: nat, title: string, coordinate: Coordinate)

  datatype Span = Span(latitudeDelta: real, longitudeDelta: real)

  /** `MKCoordinateRegion`. */
  datatype Region = Region(center: Coordinate, span: Span)

  /** `MapCameraPosition`: the initial `.userLocation(fallback: .automatic)`, or a region. */
  datatype CameraPosition = UserLocation | RegionPosition(region: Region)

  // ---------------------------------------------------------------------------------------
  // The bounding box

  datatype Box = Box(minLat: real, maxLat: real, minLon: real, maxLon: real)

  ghost predicate Inside(b: Box, c: Coordinate) {
    b.minLat <= c.latitude <= b.maxLat && b.minLon <= c.longitude <= b.maxLon
  }

  /** `b` holds every point and each of its four bounds is the coordinate of some point:
      the smallest such box. */
  ghost predicate IsBoundingBox(points: seq<Coordinate>, b: Box) {
    && (forall k :: 0 <= k < |points| ==> Inside(b, points[k]))
    && (exists k :: 0 <= k < |points| && points[k].latitude == b.minLat)
    && (exists k :: 0 <= k < |points| && points[k].latitude == b.maxLat)
    && (exists k :: 0 <= k < |points| && points[k].longitude == b.minLon)
    && (exists k :: 0 <= k < |points| && points[k].longitude == b.maxLon)
  }

  /** Swift's `min` and `max`. */
  function Min(x: real, y: real): real { if y < x then y else x }
  function Max(x: real, y: real): real { if y > x then y else x }

  /** The bounds the loop of `zoomToFitAnnotations` computes, as a fold over the points. */
  function Bounds(points: seq<Coordinate>): (b: Box)
    requires points != []
    ensures IsBoundingBox(points, b)
  {
    var p := points[|points| - 1];
    if |points| == 1 then Box(p.latitude, p.latitude, p.longitude, p.longitude)
    else
      var rest := points[..|points| - 1];
      var r := Bounds(rest);
      assert forall k :: 0 <= k < |rest| ==> rest[k] == points[k];
      Box(Min(r.minLat, p.latitude), Max(r.maxLat, p.latitude),
          Min(r.minLon, p.longitude), Max(r.maxLon, p.longitude))
  }

  /** A set of points has only one bounding box. */
  lemma BoundingBoxUnique(points: seq<Coordinate>, a: Box, b: Box)
    requires IsBoundingBox(points, a) && IsBoundingBox(points, b)
    ensures a == b
  {
    var i :| 0 <= i < |points| && points[i].latitude == a.minLat;
    var j :| 0 <= j < |points| && points[j].latitude == b.minLat;
    assert Inside(a, points[j]) && Inside(b, points[i]);
    var i2 :| 0 <= i2 < |points| && points[i2].latitude == a.maxLat;
    var j2 :| 0 <= j2 < |points| && points[j2].latitude == b.maxLat;
    assert Inside(a, points[j2]) && Inside(b, points[i2]);
    var i3 :| 0 <= i3 < |points| && points[i3].longitude == a.minLon;
    var j3 :| 0 <= j3 < |points| && points[j3].longitude == b.minLon;
    assert Inside(a, points[j3]) && Inside(b, points[i3]);
    var i4 :| 0 <= i4 < |points| && points[i4].longitude == a.maxLon;
    var j4 :| 0 <= j4 < |points| && points[j4].longitude == b.maxLon;
    assert Inside(a, points[j4]) && Inside(b, points[i4]);
  }

  /** The region `zoomToFitAnnotations` shows for a box: its midpoint, and each extent
      padded by half again. */
  function FitRegion(b: Box): (r: Region)
    ensures r.center.latitude - b.minLat == b.maxLat - r.center.latitude
    ensures r.center.longitude - b.minLon == b.maxLon - r.center.longitude
    ensures b.minLat <= b.maxLat ==> b.minLat <= r.center.latitude <= b.maxLat
    ensures b.minLon <= b.maxLon ==> b.minLon <= r.center.longitude <= b.maxLon
    ensures 2.0 * r.span.latitudeDelta == 3.0 * (b.maxLat - b.minLat)
    ensures 2.0 * r.span.longitudeDelta == 3.0 * (b.maxLon - b.minLon)
  {
    Region(Coordinate((b.minLat + b.maxLat) / 2.0, (b.minLon + b.maxLon) / 2.0),
           Span((b.maxLat - b.minLat) * 1.5, (b.maxLon - b.minLon) * 1.5))
  }

  /** `r` is centred in `b` and its spans are 1.5 times the box's extents, so not negative. */
  ghost predicate PaddedAround(b: Box, r: Region) {
    && Inside(b, r.center)
    && r.span.latitudeDelta == 1.5 * (b.maxLat - b.minLat) >= 0.0
    && r.span.longitudeDelta == 1.5 * (b.maxLon - b.minLon) >= 0.0
  }

  /** `c` lies within a third of the spans of `r` from its centre. */
  ghost predicate WellInside(r: Region, c: Coordinate) {
    && 3.0 * Abs(c.latitude - r.center.latitude) <= r.span.latitudeDelta
    && 3.0 * Abs(c.longitude - r.center.longitude) <= r.span.longitudeDelta
  }

  /** The region fitted to a box is centred in it with padded spans, and holds every point
      of the box well inside. */
  lemma FitRegionFramesBox(b: Box, c: Coordinate)
    requires Inside(b, c)
    ensures PaddedAround(b, FitRegion(b)) && WellInside(FitRegion(b), c)
  {
  }

  /** The region of a non-empty set of points is centred in their box, its spans are 1.5
      times the box's extents and not negative, and every point lies within a third of the
      span from the centre, so all stay visible with a margin. */
  lemma FitRegionFramesPoints(points: seq<Coordinate>)
    requires points != []
    ensures PaddedAround(Bounds(points), FitRegion(Bounds(points)))
    ensures forall k :: 0 <= k < |points| ==> WellInside(FitRegion(Bounds(points)), points[k])
  {
    var b := Bounds(points);
    FitRegionFramesBox(b, points[0]);
    forall k | 0 <= k < |points|
      ensures WellInside(FitRegion(b), points[k])
    {
      FitRegionFramesBox(b, points[k]);
    }
  }

  function Abs(x: real): real { if x < 0.0 then -x else x }

  /** Points that all coincide give a zero span centred on them; a single point is a case. */
  lemma CoincidentPointsRegion(points: seq<Coordinate>, p: Coordinate)
    requires points != []
    requires forall k :: 0 <= k < |points| ==> points[k] == p
    ensures FitRegion(Bounds(points)) == Region(p, Span(0.0, 0.0))
  {
    var b := Box(p.latitude, p.latitude, p.longitude, p.longitude);
    assert points[0] == p;
    assert IsBoundingBox(points, b);
    BoundingBoxUnique(points, b, Bounds(points));
  }

  /** Two hotels at (40.70, -74.00) and (40.72, -73.98) give the centre (40.71, -73.99) and
      spans of 0.03. */
  lemma TwoHotelsRegion()
    ensures FitRegion(Bounds([Coordinate(40.70, -74.00), Coordinate(40.72, -73.98)]))
            == Region(Coordinate(40.71, -73.99), Span(0.03, 0.03))
  {
    var points := [Coordinate(40.70, -74.00), Coordinate(40.72, -73.98)];
    var b := Box(40.70, 40.72, -74.00, -73.98);
    assert points[0].latitude == b.minLat && points[1].latitude == b.maxLat;
    assert points[0].longitude == b.minLon && points[1].longitude == b.maxLon;
    BoundingBoxUnique(points, b, Bounds(points));
  }

  function Coordinates(annotations: seq<HotelAnnotation>): (points: seq<Coordinate>)
    ensures |points| == |annotations|
    ensures forall k :: 0 <= k < |annotations| ==> points[k] == annotations[k].coordinate
  {
    seq(|annotations|, k requires 0 <= k < |annotations| => annotations[k].coordinate)
  }

  // ---------------------------------------------------------------------------------------
  // The join

  /** `order` lists every index below `n` exactly once: the order in which the `n` lookups
      complete. */
  ghost predicate IsCompletionOrder(order: seq<nat>, n: nat) {
    && (forall k :: 0 <= k < |order| ==> order[k] < n)
    && (forall k, l :: 0 <= k < l < |order| ==> order[k] != order[l])
    && (forall i :: 0 <= i < n ==> i in order)
  }

  /** The indices, in completion order, of the lookups that returned an item. */
  function Succeeded(results: seq<Completion>, search: LocalSearch, order: seq<nat>)
    : (indices: seq<nat>)
    requires forall k :: 0 <= k < |order| ==> order[k] < |results|
    ensures forall j :: 0 <= j < |indices| ==>
              indices[j] in order && GetLocation(results[indices[j]], search).Some?
  {
    if order == [] then []
    else
      var last := order[|order| - 1];
      var prefix := Succeeded(results, search, order[..|order| - 1]);
      if GetLocation(results[last], search).Some? then prefix + [last] else prefix
  }

  /** The annotation the completion handler of lookup `i` appends, with the id it draws. */
  function AnnotationFor(results: seq<Completion>, search: LocalSearch, i: nat, id: nat)
    : HotelAnnotation
    requires i < |results| && GetLocation(results[i], search).Some?
  {
    HotelAnnotation(id, results[i].title, GetLocation(results[i], search).value.coordinate)
  }

  /** `tempAnnotations` after the completion handlers listed in `order` have run; ids are
      drawn from `firstId` upwards. */
  function Joined(results: seq<Completion>, search: LocalSearch, order: seq<nat>, firstId: nat)
    : (joined: seq<HotelAnnotation>)
    requires forall k :: 0 <= k < |order| ==> order[k] < |results|
    ensures |joined| == |Succeeded(results, search, order)|
    ensures forall j :: 0 <= j < |joined| ==>
              joined[j] == AnnotationFor(results, search, Succeeded(results, search, order)[j], firstId + j)
  {
    if order == [] then []
    else
      var last := order[|order| - 1];
      var prefix := Joined(results, search, order[..|order| - 1], firstId);
      match GetLocation(results[last], search)
      case None => prefix
      case Some(_) => prefix + [AnnotationFor(results, search, last, firstId + |prefix|)]
  }

  /** Over a completion order, the successful indices are each listed once, and they are
      exactly the indices whose lookup returned an item. */
  lemma {:induction false} SucceededOncePerSuccess(results: seq<Completion>, search: LocalSearch,
                                                   order: seq<nat>)
    requires forall k :: 0 <= k < |order| ==> order[k] < |results|
    requires forall k, l :: 0 <= k < l < |order| ==> order[k] != order[l]
    ensures var s := Succeeded(results, search, order);
            && (forall j, l :: 0 <= j < l < |s| ==> s[j] != s[l])
            && (forall i :: i in s <==> i in order && GetLocation(results[i], search).Some?)
  {
    if order != [] {
      var init := order[..|order| - 1];
      var last := order[|order| - 1];
      assert forall k :: 0 <= k < |init| ==> init[k] == order[k];
      SucceededOncePerSuccess(results, search, init);
      assert last !in init;
      assert order == init + [last];
    }
  }

  /** The elements of `s`, as a set. */
  ghost function Elements(s: seq<nat>): set<nat> {
    set x | x in s
  }

  /** A sequence without repetitions has as many distinct elements as it is long. */
  lemma {:induction false} DistinctLength(s: seq<nat>)
    requires forall j, l :: 0 <= j < l < |s| ==> s[j] != s[l]
    ensures |Elements(s)| == |s|
  {
    if s != [] {
      var init, last := s[..|s| - 1], s[|s| - 1];
      assert forall k :: 0 <= k < |init| ==> init[k] == s[k];
      DistinctLength(init);
      assert s == init + [last];
      assert last !in Elements(init);
      assert Elements(s) == Elements(init) + {last};
    } else {
      assert Elements(s) == {};
    }
  }

  /** The indices below `n` whose lookup returned an item. */
  ghost function Successes(results: seq<Completion>, search: LocalSearch): set<nat> {
    set i | 0 <= i < |results| && GetLocation(results[i], search).Some?
  }

  /** Once every lookup has completed, in any order, the join holds exactly one annotation per
      completion whose lookup returned an item. */
  lemma JoinCount(results: seq<Completion>, search: LocalSearch, order: seq<nat>, firstId: nat)
    requires IsCompletionOrder(order, |results|)
    ensures |Joined(results, search, order, firstId)| == |Successes(results, search)|
  {
    var s := Succeeded(results, search, order);
    SucceededOncePerSuccess(results, search, order);
    DistinctLength(s);
    assert Elements(s) == Successes(results, search);
  }

  /** Every completion whose lookup returned an item has its annotation in the join, with
      the completion's title and the found item's coordinate. */
  lemma JoinKeepsEverySuccess(results: seq<Completion>, search: LocalSearch, order: seq<nat>,
                              firstId: nat, i: nat)
    requires IsCompletionOrder(order, |results|)
    requires i < |results| && GetLocation(results[i], search).Some?
    ensures var joined := Joined(results, search, order, firstId);
            exists j :: 0 <= j < |joined| && joined[j] == AnnotationFor(results, search, i, firstId + j)
  {
    var s := Succeeded(results, search, order);
    SucceededOncePerSuccess(results, search, order);
    assert i in s;
    var j :| 0 <= j < |s| && s[j] == i;
    assert Joined(results, search, order, firstId)[j] == AnnotationFor(results, search, i, firstId + j);
  }

  /** Every annotation of the join comes from a completion whose lookup returned an item;
      failed lookups leave no trace. */
  lemma JoinHoldsOnlySuccesses(results: seq<Completion>, search: LocalSearch, order: seq<nat>,
                               firstId: nat, j: nat)
    requires IsCompletionOrder(order, |results|)
    requires j < |Joined(results, search, order, firstId)|
    ensures exists i :: 0 <= i < |results| && GetLocation(results[i], search).Some?
              && Joined(results, search, order, firstId)[j] == AnnotationFor(results, search, i, firstId + j)
  {
    var s := Succeeded(results, search, order);
    assert s[j] in order;
  }

  /** The result ids are consecutive from `firstId`, so no two annotations share one. */
  lemma JoinedIdsDistinct(results: seq<Completion>, search: LocalSearch, order: seq<nat>,
                          firstId: nat)
    requires forall k :: 0 <= k < |order| ==> order[k] < |results|
    ensures var joined := Joined(results, search, order, firstId);
            forall j :: 0 <= j < |joined| ==> joined[j].id == firstId + j
  {
  }

  // ---------------------------------------------------------------------------------------
  // The screen

  class EvacuationMapView {
    const viewModel: LocationSearchViewModel
    var cameraPosition: CameraPosition
    var annotations: seq<HotelAnnotation>
    /** The next annotation id to hand out; stands for `UUID()`. */
    var nextId: nat

    constructor ()
      ensures fresh(viewModel) && viewModel.results == [] && viewModel.queryFragment == ""
      ensures cameraPosition == UserLocation && annotations == []
    {
      viewModel := new LocationSearchViewModel();
      cameraPosition := UserLocation;
      annotations := [];
      nextId := 0;
    }

    /** The synchronous part of `searchForHotels`: the query fragment becomes "Hotels". */
    method SearchForHotels()
      modifies viewModel
      ensures viewModel.queryFragment == "Hotels" && viewModel.completerQueryFragment == "Hotels"
      ensures viewModel.results == old(viewModel.results)
    {
      viewModel.SetQueryFragment("Hotels");
    }

    /** The delayed block of `searchForHotels`, from the lookups issued for the results
        published by then up to the group's `notify`. One lookup is issued per result; their
        completion handlers run in `order`, each appending an annotation when its lookup
        returned an item; after the last one the annotations are replaced by the joined list,
        not merged, and the camera is fitted to that new list. */
    method HotelLookupsSettled(search: LocalSearch, order: seq<nat>)
      requires IsCompletionOrder(order, |viewModel.results|)
      modifies this
      ensures annotations == Joined(viewModel.results, search, order, old(nextId))
      ensures nextId == old(nextId) + |annotations|
      ensures annotations == [] ==> cameraPosition == old(cameraPosition)
      ensures annotations != [] ==>
                cameraPosition == RegionPosition(FitRegion(Bounds(Coordinates(annotations))))
    {
      var results := viewModel.results;
      var tempAnnotations: seq<HotelAnnotation> := [];
      var k := 0;
      while k < |order|
        invariant 0 <= k <= |order|
        invariant tempAnnotations == Joined(results, search, order[..k], nextId)
      {
        var i := order[k];
        assert order[..k + 1][..k] == order[..k];
        match GetLocation(results[i], search) {
          case Some(_) =>
            var annotation := AnnotationFor(results, search, i, nextId + |tempAnnotations|);
            tempAnnotations := tempAnnotations + [annotation];
          case None =>
        }
        k := k + 1;
      }
      assert order[..|order|] == order;
      annotations := tempAnnotations;
      nextId := nextId + |tempAnnotations|;
      ZoomToFitAnnotations();
    }

    /** With no annotation the camera is left alone; otherwise it shows the region fitted to
        the annotations' bounding box. */
    method ZoomToFitAnnotations()
      modifies this`cameraPosition
      ensures annotations == [] ==> cameraPosition == old(cameraPosition)
      ensures annotations != [] ==>
                cameraPosition == RegionPosition(FitRegion(Bounds(Coordinates(annotations))))
    {
      if annotations == [] {
        return;
      }
      ghost var points := Coordinates(annotations);
      var minLat := annotations[0].coordinate.latitude;
      var maxLat := annotations[0].coordinate.latitude;
      var minLon := annotations[0].coordinate.longitude;
      var maxLon := annotations[0].coordinate.longitude;
      // The annotations the four bounds come from.
      ghost var iMinLat, iMaxLat, iMinLon, iMaxLon := 0, 0, 0, 0;
      var k := 0;
      while k < |annotations|
        invariant 0 <= k <= |annotations|
        invariant forall j :: 0 <= j < k ==> Inside(Box(minLat, maxLat, minLon, maxLon), points[j])
        invariant Inside(Box(minLat, maxLat, minLon, maxLon), points[0])
        invariant iMinLat < |points| && points[iMinLat].latitude == minLat
        invariant iMaxLat < |points| && points[iMaxLat].latitude == maxLat
        invariant iMinLon < |points| && points[iMinLon].longitude == minLon
        invariant iMaxLon < |points| && points[iMaxLon].longitude == maxLon
      {
        var c := annotations[k].coordinate;
        if c.latitude < minLat { iMinLat := k; }
        if c.latitude > maxLat { iMaxLat := k; }
        if c.longitude < minLon { iMinLon := k; }
        if c.longitude > maxLon { iMaxLon := k; }
        minLat := Min(minLat, c.latitude);
        maxLat := Max(maxLat, c.latitude);
        minLon := Min(minLon, c.longitude);
        maxLon := Max(maxLon, c.longitude);
        k := k + 1;
      }
      BoundingBoxUnique(points, Box(minLat, maxLat, minLon, maxLon), Bounds(points));
      var center := Coordinate((minLat + maxLat) / 2.0, (minLon + maxLon) / 2.0);
      var span := Span((maxLat - minLat) * 1.5, (maxLon - minLon) * 1.5);
      cameraPosition := RegionPosition(Region(center, span));
    }
  }
}
