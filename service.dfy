/**
 * `TrackingService`: the four maps, the seeding loop, the tick body and the
 * read accessors. Each state-changing method is proved to move the state,
 * seen as a Simulation.Store through Model(), exactly as the matching
 * Simulation function says.
 */
module Service {
  import opened Types
  import opened Routing
  import opened Naming
  import Colors
  import opened Simulation

  /** A tracker's path. Only the cursor ever changes, and it changes in place. */
  class TrackerPath {
    const points: seq<PathPoint>
    var currentPointIndex: nat
    const distance: Option<real>
    const duration: Option<real>

    constructor (value: PathValue)
      ensures View() == value
    {
      points := value.points;
      currentPointIndex := value.currentPointIndex;
      distance := value.distance;
      duration := value.duration;
    }

    function View(): PathValue
      reads this
    {
      PathValue(points, currentPointIndex, distance, duration)
    }
  }

  class TrackingService {
    /** Keys of the tracker map in insertion order: the order the tick visits them. */
    var trackerIds: seq<string>
    var trackers: map<string, Tracker>
    var locations: map<string, LocationData>
    var locationHistory: map<string, seq<LocationData>>
    var paths: map<string, TrackerPath>
    /** Every payload passed to `emitLocationUpdate`, oldest first. */
    var emitted: seq<LocationData>

    /** The tracker map is consistent and no two trackers share a path object. */
    ghost predicate Valid()
      reads this`trackerIds, this`trackers, this`paths
    {
      && Registered(trackerIds, trackers)
      && forall a, b :: a in paths && b in paths && a != b ==> paths[a] != paths[b]
    }

    ghost function Model(): Store
      reads this, paths.Values
    {
      Store(trackerIds, trackers, locations, locationHistory, PathViews(), emitted)
    }

    constructor ()
      ensures Valid() && Model() == Empty()
    {
      trackerIds, trackers, locations, locationHistory, paths, emitted := [], map[], map[], map[], map[], [];
    }

    /** `generatePath`: a new path object, walking from the stored location if no route comes back. */
    method GeneratePath(trackerId: string, inputs: RouteInputs) returns (path: TrackerPath)
      requires inputs.WellFormed()
      ensures fresh(path)
      ensures path.View() == NewPath(inputs, Get(locations, trackerId))
    {
      var value := PlanPath(inputs, Get(locations, trackerId));
      path := new TrackerPath(value);
    }

    /** `getLocationFromPath`: the point at the index of the stored path, else a jittered location. */
    function LocationFromPath(trackerId: string, pointIndex: nat, jitter: Displacement, now: int): (r: LocationData)
      reads this
      ensures r.trackerId == trackerId && r.timestamp == now
      ensures trackerId in paths && pointIndex < |paths[trackerId].points| ==>
                r.lat == paths[trackerId].points[pointIndex].lat && r.lng == paths[trackerId].points[pointIndex].lng
      ensures !(trackerId in paths && pointIndex < |paths[trackerId].points|) ==>
                r == JitterLocation(trackerId, Get(locations, trackerId), jitter, now)
    {
      LocationAt(trackerId, if trackerId in paths then Some(paths[trackerId].points) else None,
                 pointIndex, Get(locations, trackerId), jitter, now)
    }

    /** The path values behind the path objects. */
    function PathViews(): map<string, PathValue>
      reads this`paths, paths.Values
    {
      map k | k in paths :: paths[k].View()
    }

    /**
     * The cursor part of a tick step. On exhaustion a new path object is
     * stored and the reset to 0 lands on the object held before, which is
     * returned: the caller reads the location at that object's cursor.
     */
    method AdvancePath(id: string, route: RouteInputs) returns (path: TrackerPath)
      requires Valid() && id in paths && route.WellFormed()
      modifies this`paths, paths.Values
      ensures Valid()
      ensures path == old(paths[id])
      ensures PathViews() == old(PathViews())[id := NextPath(old(paths[id].View()), route, Get(locations, id))]
      ensures id in paths && path.currentPointIndex == paths[id].currentPointIndex && paths[id].points == PathViews()[id].points
      ensures forall k :: k in paths ==> paths[k] in old(paths.Values) || fresh(paths[k])
      ensures old(paths[id].currentPointIndex) + 1 >= |old(paths[id]).points| ==> fresh(paths[id]) && path.currentPointIndex == 0
    {
      ghost var views := PathViews();
      path := paths[id];
      path.currentPointIndex := path.currentPointIndex + 1;
      if path.currentPointIndex >= |path.points| {
        ReplacePath(id, route, path);
      }
      // Every other tracker keeps its path object, and that object was not written.
      forall k | k in paths && k != id
        ensures paths[k] == old(paths[k]) && paths[k].View() == views[k]
      {
      }
    }

    /** The path is exhausted: store a new one under id, then reset the cursor of the one held before. */
    method ReplacePath(id: string, route: RouteInputs, path: TrackerPath)
      requires Valid() && id in paths && paths[id] == path && route.WellFormed()
      modifies this`paths, path
      ensures Valid()
      ensures id in paths && fresh(paths[id]) && paths == old(paths)[id := paths[id]]
      ensures paths[id].View() == NewPath(route, Get(locations, id))
      ensures path.currentPointIndex == 0
    {
      var newPath := GeneratePath(id, route);
      paths := paths[id := newPath];
      path.currentPointIndex := 0;
    }

    /** One tracker's share of a tick. */
    method StepTracker(id: string, input: TickInput)
      requires Valid() && input.route.WellFormed()
      modifies this, paths.Values
      ensures Valid()
      ensures Model() == Step(old(Model()), id, input)
      ensures forall k :: k in paths ==> paths[k] in old(paths.Values) || fresh(paths[k])
      ensures id in old(paths) && old(paths[id].currentPointIndex) + 1 >= |old(paths[id]).points| ==>
                fresh(paths[id]) && old(paths[id]).currentPointIndex == 0
    {
      if id !in paths {
        return;
      }
      ghost var s := Model();
      ghost var expected := Step(s, id, input);
      var path := AdvancePath(id, input.route);
      assert PathViews() == expected.paths;
      var newLocation := LocationFromPath(id, path.currentPointIndex, input.jitter, input.now);
      assert newLocation == expected.locations[id];
      Record(id, newLocation);
      assert PathViews() == expected.paths;
      assert locationHistory == expected.history;
    }

    /** Store a tracker's new location, append it to its history if it has one, and emit it. */
    method Record(id: string, location: LocationData)
      modifies this`locations, this`locationHistory, this`emitted
      ensures locations == old(locations)[id := location]
      ensures locationHistory == if id in old(locationHistory)
                                 then old(locationHistory)[id := old(locationHistory)[id] + [location]]
                                 else old(locationHistory)
      ensures emitted == old(emitted) + [location]
    {
      var history := if id in locationHistory then locationHistory[id := locationHistory[id] + [location]]
                     else locationHistory;
      locations, locationHistory, emitted := locations[id := location], history, emitted + [location];
    }

    /** The body of the interval callback in `startSimulation`: every tracker, in insertion order. */
    method SimulationTick(inputs: seq<TickInput>)
      requires Valid() && |inputs| == |trackerIds| && TickInputsOk(inputs)
      modifies this, paths.Values
      ensures Valid()
      ensures Model() == Tick(old(Model()), inputs)
    {
      ghost var s0 := Model();
      var ids := trackerIds;
      for i := 0 to |ids|
        invariant Valid() && trackerIds == ids
        invariant Model() == TickOver(s0, ids[..i], inputs[..i])
        invariant forall k :: k in paths ==> paths[k] in old(paths.Values) || fresh(paths[k])
      {
        TickOverNext(s0, ids, inputs, i);
        StepTracker(ids[i], inputs[i]);
      }
      assert ids[..|ids|] == ids && inputs[..|ids|] == inputs;
    }

    /** `initializeTrackers`: trackers 1 to 10, each with a colour, a path, a location and a history. */
    method InitializeTrackers(inputs: seq<SeedInput>)
      requires Valid() && |inputs| == NumberOfTrackers && SeedInputsOk(inputs)
      modifies this
      ensures Valid()
      ensures Model() == Initialize(old(Model()), inputs)
    {
      ghost var s0 := Model();
      for i := 0 to NumberOfTrackers
        invariant Valid()
        invariant Model() == SeedUpTo(s0, inputs, i)
      {
        SeedUpToNext(s0, inputs, i);
        SeedTracker(i + 1, inputs[i]);
      }
    }

    /** One iteration of the seeding loop. */
    method SeedTracker(i: nat, input: SeedInput)
      requires Valid() && input.WellFormed()
      modifies this
      ensures Valid()
      ensures Model() == Seed(old(Model()), i, input)
    {
      var trackerId := TrackerId(i);
      var color := Colors.RandomColor(input.colorDraws);
      SetTracker(Tracker(trackerId, VehicleName(i), color));
      StorePath(trackerId, input.route);
      PlaceTracker(trackerId, input.jitter, input.now);
    }

    /** `trackers.set(t.id, t)`. */
    method SetTracker(t: Tracker)
      requires Valid()
      modifies this`trackerIds, this`trackers
      ensures Valid()
      ensures Model() == Register(old(Model()), t)
    {
      RegisterKeepsRegistered(Model(), t);
      var ids := if t.id in trackers then trackerIds else trackerIds + [t.id];
      trackerIds, trackers := ids, trackers[t.id := t];
    }

    /** `paths.set(id, this.generatePath(id))`. */
    method StorePath(id: string, route: RouteInputs)
      requires Valid() && route.WellFormed()
      modifies this`paths
      ensures Valid() && id in paths
      ensures Model() == WithNewPath(old(Model()), id, route)
    {
      var path := GeneratePath(id, route);
      ghost var views := PathViews();
      paths := paths[id := path];
      assert PathViews() == views[id := path.View()];
    }

    /** Take the location at index 0 of the tracker's path and start its history with it. */
    method PlaceTracker(trackerId: string, jitter: Displacement, now: int)
      requires Valid() && trackerId in paths
      modifies this`locations, this`locationHistory
      ensures Valid()
      ensures Model() == Placed(old(Model()), trackerId, jitter, now)
    {
      var initialLocation := LocationFromPath(trackerId, 0, jitter, now);
      locations, locationHistory := locations[trackerId := initialLocation], locationHistory[trackerId := [initialLocation]];
    }

    /** `getAllTrackers`: every registered tracker once, in insertion order. */
    function GetAllTrackers(): (r: seq<Tracker>)
      reads this
      requires Valid()
      ensures |r| == |trackerIds|
      ensures forall i :: 0 <= i < |r| ==> r[i] == trackers[trackerIds[i]] && r[i].id == trackerIds[i]
      ensures forall t :: t in r <==> t in trackers.Values
    {
      var r := InOrder(trackerIds, trackers);
      assert forall t :: t in trackers.Values ==> t in r by {
        forall t | t in trackers.Values
          ensures t in r
        {
          var k :| k in trackers && trackers[k] == t;
          var i :| 0 <= i < |trackerIds| && trackerIds[i] == k;
          assert r[i] == t;
        }
      }
      r
    }

    /** `getInitialState`: the trackers in order with the current location and path maps. */
    function GetInitialState(): (r: InitialState)
      reads this, paths.Values
      requires Valid()
      ensures r.trackers == GetAllTrackers()
      ensures r == Snapshot(Model())
    {
      InitialState(GetAllTrackers(), locations, PathViews())
    }

    /** `getTrackerHistory`: the stored history, or an empty one for an unknown id. */
    function GetTrackerHistory(id: string): (r: seq<LocationData>)
      reads this, paths.Values
      ensures id in locationHistory ==> r == locationHistory[id]
      ensures id !in locationHistory ==> r == []
      ensures r == HistoryOf(Model(), id)
    {
      if id in locationHistory then locationHistory[id] else []
    }
  }
}
