/**
 * Path acquisition (`generatePath`): up to three requests to the routing
 * service, retried only after a "not found" answer, and a ten-point random
 * walk when no request yields a route.
 *
 * The routing service is an oracle: the caller supplies the outcome each
 * request would have. The trigonometry of the walk is an oracle too: the
 * caller supplies the displacement of each step.
 */
module Routing {
  import opened Types

  /** Requests issued per call at most. */
  const MaxAttempts: nat := 3
  /** The only HTTP status after which a new request is made. */
  const NotFound: int := 404
  /** Points in a fallback path (PATH_LENGTH). */
  const PathLength: nat := 10
  /** Origin of the fallback walk when no location is stored (Jakarta). */
  const JakartaLat: real := -6.2607
  const JakartaLng: real := 106.8107

  /** A GeoJSON position: longitude first. */
  datatype Coord = Coord(lng: real, lat: real)

  /** The route summary; either figure may be absent. */
  datatype Summary = Summary(distance: Option<real>, duration: Option<real>)

  /** The first feature of a directions response: its line geometry and optional summary. */
  datatype Feature = Feature(coordinates: seq<Coord>, summary: Option<Summary>)

  /**
   * What one request produced: a response body (its list of features), or
   * an error that may or may not carry an HTTP response status.
   */
  datatype RouteOutcome =
    | Succeeded(features: seq<Feature>)
    | Failed(status: Option<int>)

  /**
   * A response whose first feature can be read. A body without features makes
   * the read of `features[0]` throw inside the try block; that error has no
   * HTTP response attached.
   */
  predicate Usable(o: RouteOutcome)
  {
    o.Succeeded? && |o.features| > 0
  }

  /** Only an error carrying a response with status 404 leads to another attempt. */
  predicate Retryable(o: RouteOutcome)
  {
    o.Failed? && o.status == Some(NotFound)
  }

  /** A path as stored for a tracker: its points, the cursor and the optional summary figures. */
  datatype PathValue = PathValue(points: seq<PathPoint>, currentPointIndex: nat,
                                 distance: Option<real>, duration: Option<real>)

  /**
   * Everything random in one `generatePath` call: the outcome of each possible
   * request, in order, and the displacement of each step of the fallback walk.
   */
  datatype RouteInputs = RouteInputs(responses: seq<RouteOutcome>, walk: seq<Displacement>)
  {
    predicate WellFormed()
    {
      |responses| >= MaxAttempts && |walk| == PathLength
    }
  }

  // ---------------------------------------------------------------------------
  // The retry policy

  /** The route obtained when attempts k, k+1, ... are still to be made. */
  function RouteFrom(responses: seq<RouteOutcome>, k: nat): Option<Feature>
    requires |responses| >= MaxAttempts
    decreases MaxAttempts - k
  {
    if k >= MaxAttempts then None
    else if Usable(responses[k]) then Some(responses[k].features[0])
    else if Retryable(responses[k]) then RouteFrom(responses, k + 1)
    else None
  }

  function Route(responses: seq<RouteOutcome>): Option<Feature>
    requires |responses| >= MaxAttempts
  {
    RouteFrom(responses, 0)
  }

  /** Attempt j answers the call: every attempt from k before it was a 404 and j itself is usable. */
  predicate Answers(responses: seq<RouteOutcome>, k: nat, j: nat)
    requires |responses| >= MaxAttempts
  {
    k <= j < MaxAttempts && Usable(responses[j]) &&
    forall i :: k <= i < j ==> Retryable(responses[i])
  }

  /**
   * A route is found exactly when some attempt answers, and it is then the
   * first feature of that attempt's response.
   */
  lemma {:induction false} RouteFromCharacterized(responses: seq<RouteOutcome>, k: nat)
    requires |responses| >= MaxAttempts
    ensures RouteFrom(responses, k).Some? <==> exists j: nat :: Answers(responses, k, j)
    ensures forall j: nat :: Answers(responses, k, j) ==> RouteFrom(responses, k) == Some(responses[j].features[0])
    decreases MaxAttempts - k
  {
    if k < MaxAttempts {
      RouteFromCharacterized(responses, k + 1);
      if RouteFrom(responses, k).Some? {
        if Usable(responses[k]) {
          assert Answers(responses, k, k);
        } else {
          var j :| Answers(responses, k + 1, j);
          assert Answers(responses, k, j);
        }
      }
      forall j: nat | Answers(responses, k, j)
        ensures RouteFrom(responses, k) == Some(responses[j].features[0])
      {
        if j > k {
          assert Retryable(responses[k]);
          assert Answers(responses, k + 1, j);
        }
      }
    }
  }

  /** When every one of the three attempts is answered with 404, no route is found. */
  lemma AllNotFoundGivesNoRoute(responses: seq<RouteOutcome>)
    requires |responses| >= MaxAttempts
    requires forall i :: 0 <= i < MaxAttempts ==> Retryable(responses[i])
    ensures Route(responses) == None
  {
    RouteFromCharacterized(responses, 0);
  }

  /**
   * The request loop: attempt after attempt until one yields a usable response,
   * one fails with anything but a 404, or three have been made.
   */
  method RequestRoute(responses: seq<RouteOutcome>) returns (route: Option<Feature>, attempts: nat)
    requires |responses| >= MaxAttempts
    ensures 1 <= attempts <= MaxAttempts
    ensures forall j :: 0 <= j < attempts - 1 ==> Retryable(responses[j])
    ensures route.Some? <==> Usable(responses[attempts - 1])
    ensures route.Some? ==> route.value == responses[attempts - 1].features[0]
    ensures route.None? && attempts < MaxAttempts ==> !Retryable(responses[attempts - 1])
    ensures route == Route(responses)
  {
    route, attempts := None, 0;
    while attempts < MaxAttempts
      invariant attempts <= MaxAttempts
      invariant forall j :: 0 <= j < attempts ==> Retryable(responses[j])
      invariant Route(responses) == RouteFrom(responses, attempts)
    {
      var outcome := responses[attempts];
      attempts := attempts + 1;
      if Usable(outcome) {
        route := Some(outcome.features[0]);
        return;
      }
      if !Retryable(outcome) {
        return;
      }
    }
  }

  // ---------------------------------------------------------------------------
  // Turning a response into a path

  /** `coords.map(([lng, lat]) => ({ lat, lng }))` */
  function ToPoints(coords: seq<Coord>): seq<PathPoint>
  {
    if coords == [] then [] else [PathPoint(coords[0].lat, coords[0].lng)] + ToPoints(coords[1..])
  }

  lemma {:induction false} ToPointsLength(coords: seq<Coord>)
    ensures |ToPoints(coords)| == |coords|
  {
    if coords != [] {
      ToPointsLength(coords[1..]);
    }
  }

  /** Same count, same order, each [lng, lat] pair swapped into a point. */
  lemma {:induction false} ToPointsAt(coords: seq<Coord>, k: int)
    requires 0 <= k < |coords|
    ensures |ToPoints(coords)| == |coords|
    ensures ToPoints(coords)[k] == PathPoint(coords[k].lat, coords[k].lng)
  {
    ToPointsLength(coords);
    if k > 0 {
      ToPointsAt(coords[1..], k - 1);
    }
  }

  function SummaryDistance(s: Option<Summary>): Option<real>
  {
    if s.Some? then s.value.distance else None
  }

  function SummaryDuration(s: Option<Summary>): Option<real>
  {
    if s.Some? then s.value.duration else None
  }

  function RoutedPath(f: Feature): PathValue
  {
    PathValue(ToPoints(f.coordinates), 0, SummaryDistance(f.summary), SummaryDuration(f.summary))
  }

  // ---------------------------------------------------------------------------
  // The fallback walk

  /** The walk starts at the stored location, or at Jakarta when none is stored. */
  function FallbackOrigin(stored: Option<LocationData>): (o: PathPoint)
    ensures stored.Some? ==> o == PathPoint(stored.value.lat, stored.value.lng)
    ensures stored.None? ==> o == PathPoint(JakartaLat, JakartaLng)
  {
    match stored
    case Some(loc) => PathPoint(loc.lat, loc.lng)
    case None => PathPoint(JakartaLat, JakartaLng)
  }

  /** Reference definition of the walk: each point is the previous one moved by its step. */
  function WalkFrom(origin: PathPoint, steps: seq<Displacement>): seq<PathPoint>
    decreases |steps|
  {
    if steps == [] then []
    else
      var next := Moved(origin, steps[0]);
      [next] + WalkFrom(next, steps[1..])
  }

  lemma {:induction false} WalkLength(origin: PathPoint, steps: seq<Displacement>)
    ensures |WalkFrom(origin, steps)| == |steps|
    decreases |steps|
  {
    if steps != [] {
      WalkLength(Moved(origin, steps[0]), steps[1..]);
    }
  }

  /** The walk is locally coherent: point k is point k-1 (the origin for k = 0) moved by step k. */
  lemma {:induction false} WalkStep(origin: PathPoint, steps: seq<Displacement>, k: int)
    requires 0 <= k < |steps|
    ensures |WalkFrom(origin, steps)| == |steps|
    ensures WalkFrom(origin, steps)[k] ==
            Moved(if k == 0 then origin else WalkFrom(origin, steps)[k - 1], steps[k])
    decreases |steps|
  {
    WalkLength(origin, steps);
    if k > 0 {
      var next := Moved(origin, steps[0]);
      WalkStep(next, steps[1..], k - 1);
      if k > 1 {
        assert WalkFrom(origin, steps)[k - 1] == WalkFrom(next, steps[1..])[k - 2];
      }
    }
  }

  /** The fallback loop: PATH_LENGTH steps, each from the last point reached. */
  method RandomWalk(origin: PathPoint, steps: seq<Displacement>) returns (points: seq<PathPoint>)
    requires |steps| == PathLength
    ensures |points| == PathLength
    ensures points == WalkFrom(origin, steps)
  {
    points := [];
    var last := origin;
    for i := 0 to PathLength
      invariant |points| == i
      invariant points + WalkFrom(last, steps[i..]) == WalkFrom(origin, steps)
    {
      var next := Moved(last, steps[i]);
      assert steps[i..][1..] == steps[i + 1..];
      points := points + [next];
      last := next;
    }
    assert steps[PathLength..] == [];
  }

  function FallbackPath(inputs: RouteInputs, stored: Option<LocationData>): PathValue
  {
    PathValue(WalkFrom(FallbackOrigin(stored), inputs.walk), 0, None, None)
  }

  // ---------------------------------------------------------------------------
  // The whole call

  /** The path one `generatePath` call returns. */
  function NewPath(inputs: RouteInputs, stored: Option<LocationData>): (p: PathValue)
    requires inputs.WellFormed()
    ensures p.currentPointIndex == 0
  {
    match Route(inputs.responses)
    case Some(f) => RoutedPath(f)
    case None => FallbackPath(inputs, stored)
  }

  /**
   * On a route: the response's coordinates in order, cursor 0, the summary's
   * figures (absent when the summary is).
   */
  lemma RoutedPathShape(inputs: RouteInputs, stored: Option<LocationData>, f: Feature)
    requires inputs.WellFormed() && Route(inputs.responses) == Some(f)
    ensures |NewPath(inputs, stored).points| == |f.coordinates|
    ensures forall k :: 0 <= k < |f.coordinates| ==>
              NewPath(inputs, stored).points[k] == PathPoint(f.coordinates[k].lat, f.coordinates[k].lng)
    ensures NewPath(inputs, stored).currentPointIndex == 0
    ensures f.summary.None? ==> NewPath(inputs, stored).distance.None? && NewPath(inputs, stored).duration.None?
    ensures f.summary.Some? ==> NewPath(inputs, stored).distance == f.summary.value.distance &&
                                NewPath(inputs, stored).duration == f.summary.value.duration
  {
    ToPointsLength(f.coordinates);
    forall k | 0 <= k < |f.coordinates|
      ensures NewPath(inputs, stored).points[k] == PathPoint(f.coordinates[k].lat, f.coordinates[k].lng)
    {
      ToPointsAt(f.coordinates, k);
    }
  }

  /**
   * Without a route: exactly PATH_LENGTH points walked from the stored location
   * (or Jakarta), cursor 0, no distance and no duration.
   */
  lemma FallbackPathShape(inputs: RouteInputs, stored: Option<LocationData>)
    requires inputs.WellFormed() && Route(inputs.responses).None?
    ensures |NewPath(inputs, stored).points| == PathLength
    ensures NewPath(inputs, stored).points == WalkFrom(FallbackOrigin(stored), inputs.walk)
    ensures NewPath(inputs, stored).currentPointIndex == 0
    ensures NewPath(inputs, stored).distance.None? && NewPath(inputs, stored).duration.None?
  {
    WalkLength(FallbackOrigin(stored), inputs.walk);
  }

  /** `generatePath` never fails: its path is non-empty unless a route came back with no coordinates. */
  lemma NewPathNonEmpty(inputs: RouteInputs, stored: Option<LocationData>)
    requires inputs.WellFormed()
    ensures |NewPath(inputs, stored).points| == 0 ==>
              Route(inputs.responses).Some? && Route(inputs.responses).value.coordinates == []
  {
    match Route(inputs.responses)
    case Some(f) => ToPointsLength(f.coordinates);
    case None => WalkLength(FallbackOrigin(stored), inputs.walk);
  }

  /** The body of `generatePath` on values: request a route, else walk. */
  method PlanPath(inputs: RouteInputs, stored: Option<LocationData>) returns (path: PathValue)
    requires inputs.WellFormed()
    ensures path == NewPath(inputs, stored)
  {
    var route, _ := RequestRoute(inputs.responses);
    if route.Some? {
      var f := route.value;
      path := PathValue(ToPoints(f.coordinates), 0, SummaryDistance(f.summary), SummaryDuration(f.summary));
    } else {
      var points := RandomWalk(FallbackOrigin(stored), inputs.walk);
      path := PathValue(points, 0, None, None);
    }
  }
}
