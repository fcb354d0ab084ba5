/**
 * The tracking service's state as a value, and what seeding, one tracker's
 * tick step, a whole tick and the read accessors do to it. The class in
 * service.dfy is proved to follow these definitions; the lemmas here state
 * what they guarantee.
 */
module Simulation {
  import opened Types
  import opened Routing
  import opened Naming
  import Colors

  /** NUMBER_OF_TRACKERS */
  const NumberOfTrackers: nat := 10

  /**
   * The service's four maps, the insertion order of the tracker map (which
   * the tick iterates), and every location handed to the update callback.
   */
  datatype Store = Store(
    trackerIds: seq<string>,
    trackers: map<string, Tracker>,
    locations: map<string, LocationData>,
    history: map<string, seq<LocationData>>,
    paths: map<string, PathValue>,
    emitted: seq<LocationData>)

  function Empty(): Store
  {
    Store([], map[], map[], map[], map[], [])
  }

  ghost predicate Distinct(ids: seq<string>)
  {
    forall i, j :: 0 <= i < j < |ids| ==> ids[i] != ids[j]
  }

  /** The tracker map: keys in insertion order without repeats, each tracker stored under its own id. */
  ghost predicate Registered(ids: seq<string>, trackers: map<string, Tracker>)
  {
    && Distinct(ids)
    && (forall i :: 0 <= i < |ids| ==> ids[i] in trackers)
    && (forall k :: k in trackers ==> k in ids && trackers[k].id == k)
  }

  /** The cursor is on a point of the path, or at 0 on a path that has none. */
  ghost predicate CursorOk(p: PathValue)
  {
    p.currentPointIndex < |p.points| || p.currentPointIndex == 0
  }

  ghost predicate CursorsOk(s: Store)
  {
    forall k :: k in s.paths ==> CursorOk(s.paths[k])
  }

  // ---------------------------------------------------------------------------
  // Deriving a location (`getLocationFromPath`, `generateRandomLocation`)

  /** What a tick or a seeding step takes from the outside world for one tracker. */
  datatype TickInput = TickInput(route: RouteInputs, jitter: Displacement, now: int)

  datatype SeedInput = SeedInput(colorDraws: seq<int>, route: RouteInputs, jitter: Displacement, now: int)
  {
    predicate WellFormed()
    {
      Colors.ValidDraws(colorDraws) && route.WellFormed()
    }
  }

  /** `v || base` on a coordinate: an absent or zero value gives way to the base. */
  function OrBase(v: Option<real>, base: real): real
  {
    if v.Some? && v.value != 0.0 then v.value else base
  }

  /**
   * A jittered location around the stored one, or around Jakarta when none is
   * stored; a stored coordinate of exactly 0 counts as missing.
   */
  function JitterLocation(id: string, current: Option<LocationData>, jitter: Displacement, now: int): (r: LocationData)
    ensures r.trackerId == id && r.timestamp == now
    ensures current.Some? && current.value.lat != 0.0 ==> r.lat == current.value.lat + jitter.dLat
    ensures current.Some? && current.value.lng != 0.0 ==> r.lng == current.value.lng + jitter.dLng
    ensures current.None? || current.value.lat == 0.0 ==> r.lat == JakartaLat + jitter.dLat
    ensures current.None? || current.value.lng == 0.0 ==> r.lng == JakartaLng + jitter.dLng
  {
    var lat := OrBase(if current.Some? then Some(current.value.lat) else None, JakartaLat);
    var lng := OrBase(if current.Some? then Some(current.value.lng) else None, JakartaLng);
    LocationData(id, lat + jitter.dLat, lng + jitter.dLng, now)
  }

  /** The point at `idx` of the tracker's path, or a jittered location when there is no point there. */
  function LocationAt(id: string, points: Option<seq<PathPoint>>, idx: nat, current: Option<LocationData>,
                      jitter: Displacement, now: int): LocationData
  {
    if points.Some? && idx < |points.value| then
      LocationData(id, points.value[idx].lat, points.value[idx].lng, now)
    else
      JitterLocation(id, current, jitter, now)
  }

  // ---------------------------------------------------------------------------
  // One tracker's tick step

  /** The tracker's entries in r are those in s. */
  ghost predicate Untouched(s: Store, r: Store, k: string)
  {
    && Get(r.paths, k) == Get(s.paths, k)
    && Get(r.locations, k) == Get(s.locations, k)
    && Get(r.history, k) == Get(s.history, k)
  }

  /**
   * The tracker's entries in r are those one step produces from s: the cursor
   * moves on by one while it stays on the path, otherwise a new path replaces
   * the old one; the location is the stored path's point under its cursor, and
   * it is appended to the history if the tracker has one.
   */
  ghost predicate Advanced(s: Store, r: Store, id: string, input: TickInput)
    requires input.route.WellFormed() && id in s.paths
  {
    var was := s.paths[id];
    && id in r.paths && id in r.locations
    && r.paths[id] == NextPath(was, input.route, Get(s.locations, id))
    && r.locations[id] == LocationAt(id, Some(r.paths[id].points), r.paths[id].currentPointIndex,
                                     Get(s.locations, id), input.jitter, input.now)
    && Get(r.history, id) == (if id in s.history then Some(s.history[id] + [r.locations[id]]) else None)
  }

  /** The path stored for a tracker after one step: the cursor moved on, or a new path once it runs off the end. */
  function NextPath(was: PathValue, route: RouteInputs, current: Option<LocationData>): (p: PathValue)
    requires route.WellFormed()
    ensures p.currentPointIndex == (if was.currentPointIndex + 1 < |was.points| then was.currentPointIndex + 1 else 0)
  {
    if was.currentPointIndex + 1 < |was.points| then was.(currentPointIndex := was.currentPointIndex + 1)
    else NewPath(route, current)
  }

  /** The body of the tick loop for one tracker. */
  function Step(s: Store, id: string, input: TickInput): (r: Store)
    requires input.route.WellFormed()
    ensures r.trackerIds == s.trackerIds && r.trackers == s.trackers
    ensures r.paths.Keys == s.paths.Keys && r.history.Keys == s.history.Keys
  {
    if id !in s.paths then s
    else
      var path := s.paths[id];
      var advanced := path.currentPointIndex + 1;
      var regenerate := advanced >= |path.points|;
      var stored := NextPath(path, input.route, Get(s.locations, id));
      // The index read is the cursor of the path held before the step, which
      // is reset to 0 when a new path is stored.
      var readIndex := if regenerate then 0 else advanced;
      var location := LocationAt(id, Some(stored.points), readIndex, Get(s.locations, id), input.jitter, input.now);
      s.(paths := s.paths[id := stored],
         locations := s.locations[id := location],
         history := if id in s.history then s.history[id := s.history[id] + [location]] else s.history,
         emitted := s.emitted + [location])
  }

  /**
   * A tracker without a path is skipped; one with a path is Advanced, keeps
   * its cursor in order and emits exactly its new location; no other tracker
   * is touched.
   */
  lemma StepEffect(s: Store, id: string, input: TickInput)
    requires input.route.WellFormed()
    ensures var r := Step(s, id, input);
            && (id !in s.paths ==> r == s)
            && (id in s.paths ==> Advanced(s, r, id, input) && CursorOk(r.paths[id]))
            && (id in s.paths ==> r.emitted == s.emitted + [r.locations[id]])
            && forall k :: k != id ==> Untouched(s, r, k)
  {
  }

  // ---------------------------------------------------------------------------
  // A whole tick: every registered tracker in insertion order

  ghost predicate TickInputsOk(inputs: seq<TickInput>)
  {
    forall i :: 0 <= i < |inputs| ==> inputs[i].route.WellFormed()
  }

  /** The trackers of ids stepped in order, input i going to tracker i. */
  function TickOver(s: Store, ids: seq<string>, inputs: seq<TickInput>): Store
    requires |inputs| == |ids| && TickInputsOk(inputs)
    decreases |ids|
  {
    if ids == [] then s
    else
      var n := |ids| - 1;
      Step(TickOver(s, ids[..n], inputs[..n]), ids[n], inputs[n])
  }

  /** Stepping one more tracker extends a pass over a prefix of the order. */
  lemma TickOverNext(s: Store, ids: seq<string>, inputs: seq<TickInput>, i: nat)
    requires |inputs| == |ids| && TickInputsOk(inputs) && i < |ids|
    ensures TickOver(s, ids[..i + 1], inputs[..i + 1]) == Step(TickOver(s, ids[..i], inputs[..i]), ids[i], inputs[i])
  {
    assert ids[..i + 1][..i] == ids[..i] && inputs[..i + 1][..i] == inputs[..i];
  }

  /**
   * One run of the interval callback. It never adds or removes a tracker, a
   * path or a history, and only appends to what was emitted.
   */
  function Tick(s: Store, inputs: seq<TickInput>): (r: Store)
    requires |inputs| == |s.trackerIds| && TickInputsOk(inputs)
    ensures r.trackerIds == s.trackerIds && r.trackers == s.trackers
    ensures r.paths.Keys == s.paths.Keys && r.history.Keys == s.history.Keys
    ensures |s.emitted| <= |r.emitted| && r.emitted[..|s.emitted|] == s.emitted
  {
    TickOverFrame(s, s.trackerIds, inputs);
    TickOver(s, s.trackerIds, inputs)
  }

  /** Number of ids that have a path, i.e. of updates one pass over ids emits. */
  function WithPath(ids: seq<string>, paths: map<string, PathValue>): nat
    decreases |ids|
  {
    if ids == [] then 0
    else WithPath(ids[..|ids| - 1], paths) + (if ids[|ids| - 1] in paths then 1 else 0)
  }

  /** The locations one pass over ids emits, in order: one for each id that has a path. */
  function Updates(ids: seq<string>, paths: map<string, PathValue>, locations: map<string, LocationData>): seq<LocationData>
    decreases |ids|
  {
    if ids == [] then []
    else
      var n := |ids| - 1;
      Updates(ids[..n], paths, locations) + (if ids[n] in paths && ids[n] in locations then [locations[ids[n]]] else [])
  }

  /** Updates depends only on the locations of the ids it lists. */
  lemma {:induction false} UpdatesFrame(ids: seq<string>, paths: map<string, PathValue>,
                                        l1: map<string, LocationData>, l2: map<string, LocationData>)
    requires forall k :: k in ids ==> Get(l1, k) == Get(l2, k)
    ensures Updates(ids, paths, l1) == Updates(ids, paths, l2)
    decreases |ids|
  {
    if ids != [] {
      var n := |ids| - 1;
      forall k | k in ids[..n]
        ensures Get(l1, k) == Get(l2, k)
      {
        var j :| 0 <= j < n && ids[..n][j] == k;
        assert ids[j] == k;
      }
      UpdatesFrame(ids[..n], paths, l1, l2);
      assert Get(l1, ids[n]) == Get(l2, ids[n]);
    }
  }

  /**
   * A pass changes no registry and no key set, only extends the emitted
   * updates, and leaves every tracker outside ids alone.
   */
  lemma {:induction false} TickOverFrame(s: Store, ids: seq<string>, inputs: seq<TickInput>)
    requires |inputs| == |ids| && TickInputsOk(inputs)
    ensures var r := TickOver(s, ids, inputs);
            && r.trackerIds == s.trackerIds && r.trackers == s.trackers
            && r.paths.Keys == s.paths.Keys && r.history.Keys == s.history.Keys
            && |r.emitted| == |s.emitted| + WithPath(ids, s.paths)
            && r.emitted[..|s.emitted|] == s.emitted
            && forall k :: k !in ids ==> Untouched(s, r, k)
    decreases |ids|
  {
    if ids != [] {
      var n := |ids| - 1;
      var prev := TickOver(s, ids[..n], inputs[..n]);
      TickOverFrame(s, ids[..n], inputs[..n]);
      var r := Step(prev, ids[n], inputs[n]);
      StepEffect(prev, ids[n], inputs[n]);
      assert r.emitted[..|prev.emitted|] == prev.emitted;
      assert r.emitted[..|s.emitted|] == prev.emitted[..|s.emitted|];
      forall k | k !in ids
        ensures Untouched(s, r, k)
      {
        assert k !in ids[..n];
      }
    }
  }

  /**
   * A pass over distinct ids emits, after what was emitted before, the final
   * location of each id that has a path, in the order of ids.
   */
  lemma {:induction false} TickOverEmitted(s: Store, ids: seq<string>, inputs: seq<TickInput>)
    requires |inputs| == |ids| && TickInputsOk(inputs) && Distinct(ids)
    ensures TickOver(s, ids, inputs).emitted == s.emitted + Updates(ids, s.paths, TickOver(s, ids, inputs).locations)
    decreases |ids|
  {
    if ids != [] {
      var n := |ids| - 1;
      var prev := TickOver(s, ids[..n], inputs[..n]);
      TickOverEmitted(s, ids[..n], inputs[..n]);
      TickOverFrame(s, ids[..n], inputs[..n]);
      var r := Step(prev, ids[n], inputs[n]);
      StepEffect(prev, ids[n], inputs[n]);
      forall k | k in ids[..n]
        ensures Get(prev.locations, k) == Get(r.locations, k)
      {
        var j :| 0 <= j < n && ids[..n][j] == k;
        assert ids[j] != ids[n];
        assert Untouched(prev, r, k);
      }
      UpdatesFrame(ids[..n], s.paths, prev.locations, r.locations);
    }
  }

  /**
   * Within a pass over distinct ids, the tracker at position m is stepped
   * exactly once: with a path it is Advanced from its state before the pass,
   * without one it is left alone.
   */
  lemma {:induction false} TickOverEffect(s: Store, ids: seq<string>, inputs: seq<TickInput>, m: nat)
    requires |inputs| == |ids| && TickInputsOk(inputs) && Distinct(ids) && m < |ids|
    ensures ids[m] in s.paths ==> Advanced(s, TickOver(s, ids, inputs), ids[m], inputs[m])
    ensures ids[m] !in s.paths ==> Untouched(s, TickOver(s, ids, inputs), ids[m])
    decreases |ids|
  {
    var n := |ids| - 1;
    var k := ids[m];
    var prev := TickOver(s, ids[..n], inputs[..n]);
    var r := Step(prev, ids[n], inputs[n]);
    StepEffect(prev, ids[n], inputs[n]);
    assert r == TickOver(s, ids, inputs);
    if m == n {
      assert k !in ids[..n];
      TickOverFrame(s, ids[..n], inputs[..n]);
      assert Untouched(s, prev, k);
    } else {
      assert ids[..n][m] == k;
      TickOverEffect(s, ids[..n], inputs[..n], m);
      assert ids[n] != k;
      assert Untouched(prev, r, k);
    }
  }

  /** A tick keeps every cursor on its path (or at 0 on an empty path). */
  lemma {:induction false} TickOverKeepsCursors(s: Store, ids: seq<string>, inputs: seq<TickInput>)
    requires |inputs| == |ids| && TickInputsOk(inputs) && CursorsOk(s)
    ensures CursorsOk(TickOver(s, ids, inputs))
    decreases |ids|
  {
    if ids != [] {
      var n := |ids| - 1;
      TickOverKeepsCursors(s, ids[..n], inputs[..n]);
      var prev := TickOver(s, ids[..n], inputs[..n]);
      var r := Step(prev, ids[n], inputs[n]);
      StepEffect(prev, ids[n], inputs[n]);
      forall k | k in r.paths
        ensures CursorOk(r.paths[k])
      {
        if k != ids[n] {
          assert Untouched(prev, r, k);
        }
      }
    }
  }

  /**
   * After a tick from a state whose cursors are in order, every stored path
   * with points has its cursor on one of them.
   */
  lemma TickIndexInRange(s: Store, inputs: seq<TickInput>)
    requires |inputs| == |s.trackerIds| && TickInputsOk(inputs) && CursorsOk(s)
    ensures CursorsOk(Tick(s, inputs))
    ensures forall k :: k in Tick(s, inputs).paths && |Tick(s, inputs).paths[k].points| > 0 ==>
              Tick(s, inputs).paths[k].currentPointIndex < |Tick(s, inputs).paths[k].points|
  {
    TickOverKeepsCursors(s, s.trackerIds, inputs);
  }

  /**
   * One tick on a consistent registry: every tracker with a path is advanced
   * once, its history grows by exactly its new location; every other tracker
   * is untouched; the updates emitted are the new locations of the trackers
   * with a path, in insertion order; histories only grow.
   */
  lemma TickEffect(s: Store, inputs: seq<TickInput>)
    requires |inputs| == |s.trackerIds| && TickInputsOk(inputs) && Registered(s.trackerIds, s.trackers)
    ensures var r := Tick(s, inputs);
            && r.trackerIds == s.trackerIds && r.trackers == s.trackers && r.history.Keys == s.history.Keys
            && (forall m :: 0 <= m < |s.trackerIds| && s.trackerIds[m] in s.paths ==>
                  Advanced(s, r, s.trackerIds[m], inputs[m]))
            && (forall k :: k !in s.paths ==> Untouched(s, r, k))
            && |r.emitted| == |s.emitted| + WithPath(s.trackerIds, s.paths)
            && r.emitted[..|s.emitted|] == s.emitted
            && r.emitted == s.emitted + Updates(s.trackerIds, s.paths, r.locations)
            && (forall k :: k in s.history ==> k in r.history && |s.history[k]| <= |r.history[k]| <= |s.history[k]| + 1
                                                && r.history[k][..|s.history[k]|] == s.history[k])
  {
    var ids := s.trackerIds;
    var r := Tick(s, inputs);
    TickOverFrame(s, ids, inputs);
    TickOverEmitted(s, ids, inputs);
    forall m | 0 <= m < |ids| && ids[m] in s.paths
      ensures Advanced(s, r, ids[m], inputs[m])
    {
      TickOverEffect(s, ids, inputs, m);
    }
    forall k | k !in s.paths
      ensures Untouched(s, r, k)
    {
      if k in ids {
        var m :| 0 <= m < |ids| && ids[m] == k;
        TickOverEffect(s, ids, inputs, m);
      }
    }
    forall k | k in s.history
      ensures k in r.history && |s.history[k]| <= |r.history[k]| <= |s.history[k]| + 1
      ensures r.history[k][..|s.history[k]|] == s.history[k]
    {
      if k in ids {
        var m :| 0 <= m < |ids| && ids[m] == k;
        TickOverEffect(s, ids, inputs, m);
        if k in s.paths {
          assert r.history[k] == s.history[k] + [r.locations[k]];
        }
      }
    }
  }

  // ---------------------------------------------------------------------------
  // Seeding (`initializeTrackers`)

  /** `trackers.set(t.id, t)`: a new key goes to the end of the order, an existing one keeps its place. */
  function Register(s: Store, t: Tracker): Store
  {
    s.(trackerIds := if t.id in s.trackers then s.trackerIds else s.trackerIds + [t.id],
       trackers := s.trackers[t.id := t])
  }

  /** Registering a tracker under its own id keeps the tracker map consistent. */
  lemma RegisterKeepsRegistered(s: Store, t: Tracker)
    requires Registered(s.trackerIds, s.trackers)
    ensures Registered(Register(s, t).trackerIds, Register(s, t).trackers)
  {
    if t.id !in s.trackers {
      RegisteredAppend(s.trackerIds, s.trackers, t);
    }
  }

  /** `paths.set(id, generatePath(id))`: a new path, walking from the stored location if no route comes back. */
  function WithNewPath(s: Store, id: string, route: RouteInputs): Store
    requires route.WellFormed()
  {
    s.(paths := s.paths[id := NewPath(route, Get(s.locations, id))])
  }

  /** Take the tracker's location at index 0 of its stored path and start its history with it. */
  function Placed(s: Store, id: string, jitter: Displacement, now: int): Store
    requires id in s.paths
  {
    var location := LocationAt(id, Some(s.paths[id].points), 0, Get(s.locations, id), jitter, now);
    s.(locations := s.locations[id := location], history := s.history[id := [location]])
  }

  /**
   * Iteration i of the seeding loop: `tracker-i` is registered as `Vehicle i`
   * and gets a path at index 0, a location and a one-entry history holding
   * it; no other key is lost and nothing is emitted.
   */
  function Seed(s: Store, i: nat, input: SeedInput): (r: Store)
    requires input.WellFormed()
    ensures var id := TrackerId(i);
            && id in r.trackers && id in r.paths && id in r.locations && id in r.history
            && r.trackers[id] == Tracker(id, VehicleName(i), Colors.ColorOf(input.colorDraws))
            && r.paths[id].currentPointIndex == 0
            && r.history[id] == [r.locations[id]]
    ensures s.trackers.Keys <= r.trackers.Keys && s.paths.Keys <= r.paths.Keys
    ensures s.locations.Keys <= r.locations.Keys && s.history.Keys <= r.history.Keys
    ensures r.emitted == s.emitted
  {
    var id := TrackerId(i);
    var registered := Register(s, Tracker(id, VehicleName(i), Colors.ColorOf(input.colorDraws)));
    Placed(WithNewPath(registered, id, input.route), id, input.jitter, input.now)
  }

  ghost predicate SeedInputsOk(inputs: seq<SeedInput>)
  {
    forall i :: 0 <= i < |inputs| ==> inputs[i].WellFormed()
  }

  /**
   * The first n iterations of the seeding loop: `tracker-1` ... `tracker-n`
   * each have all four entries, no key is lost and nothing is emitted.
   */
  function SeedUpTo(s: Store, inputs: seq<SeedInput>, n: nat): (r: Store)
    requires n <= |inputs| && SeedInputsOk(inputs)
    ensures forall i :: 1 <= i <= n ==> Seeded(r, TrackerId(i))
    ensures s.trackers.Keys <= r.trackers.Keys && s.paths.Keys <= r.paths.Keys
    ensures s.locations.Keys <= r.locations.Keys && s.history.Keys <= r.history.Keys
    ensures r.emitted == s.emitted
  {
    if n == 0 then s else Seed(SeedUpTo(s, inputs, n - 1), n, inputs[n - 1])
  }

  /** One more iteration of the seeding loop. */
  lemma SeedUpToNext(s: Store, inputs: seq<SeedInput>, n: nat)
    requires n < |inputs| && SeedInputsOk(inputs)
    ensures SeedUpTo(s, inputs, n + 1) == Seed(SeedUpTo(s, inputs, n), n + 1, inputs[n])
  {
  }

  /** A tracker with all four entries: registered, with a path, a location and a history. */
  ghost predicate Seeded(r: Store, id: string)
  {
    id in r.trackers && id in r.paths && id in r.locations && id in r.history
  }

  /**
   * `initializeTrackers`: afterwards `tracker-1` ... `tracker-10` each have all
   * four entries, no key is lost and nothing is emitted.
   */
  function Initialize(s: Store, inputs: seq<SeedInput>): (r: Store)
    requires |inputs| == NumberOfTrackers && SeedInputsOk(inputs)
    ensures forall i :: 1 <= i <= NumberOfTrackers ==> Seeded(r, TrackerId(i))
    ensures s.trackers.Keys <= r.trackers.Keys && s.paths.Keys <= r.paths.Keys
    ensures s.locations.Keys <= r.locations.Keys && s.history.Keys <= r.history.Keys
    ensures r.emitted == s.emitted
  {
    SeedUpTo(s, inputs, NumberOfTrackers)
  }

  /** `tracker-1` ... `tracker-n` */
  function SeededIds(n: nat): seq<string>
  {
    seq(n, i requires 0 <= i < n => TrackerId(i + 1))
  }

  /** What seeding from an empty service gives tracker i (1-based), from the i-th input. */
  ghost predicate SeededFresh(r: Store, inputs: seq<SeedInput>, i: nat)
    requires 1 <= i <= |inputs| && SeedInputsOk(inputs)
  {
    var id := TrackerId(i);
    var input := inputs[i - 1];
    && id in r.trackers && id in r.paths && id in r.locations && id in r.history
    && r.trackers[id] == Tracker(id, VehicleName(i), Colors.ColorOf(input.colorDraws))
    && r.paths[id] == NewPath(input.route, None)
    && r.locations[id] == LocationAt(id, Some(r.paths[id].points), 0, None, input.jitter, input.now)
    && r.history[id] == [r.locations[id]]
  }

  /** The registry after n seeding iterations on an empty service: `tracker-1` ... `tracker-n`, each with every entry. */
  ghost predicate SeededShape(r: Store, n: nat)
  {
    && r.trackerIds == SeededIds(n)
    && Registered(r.trackerIds, r.trackers)
    && r.emitted == []
    && r.paths.Keys == r.trackers.Keys && r.locations.Keys == r.trackers.Keys && r.history.Keys == r.trackers.Keys
  }

  /** The state after n seeding iterations on an empty service. */
  ghost predicate SeededFromEmpty(r: Store, inputs: seq<SeedInput>, n: nat)
    requires n <= |inputs| && SeedInputsOk(inputs)
  {
    && SeededShape(r, n)
    && forall i :: 1 <= i <= n ==> SeededFresh(r, inputs, i)
  }

  lemma SeededIdsDistinct(n: nat)
    ensures Distinct(SeededIds(n))
  {
    forall i, j | 0 <= i < j < n
      ensures SeededIds(n)[i] != SeededIds(n)[j]
    {
      if TrackerId(i + 1) == TrackerId(j + 1) {
        TrackerIdInjective(i + 1, j + 1);
      }
    }
  }

  /** Seeding a tracker whose id is not yet stored appends it and sets its three entries. */
  lemma SeedNewTracker(prev: Store, n: nat, input: SeedInput)
    requires input.WellFormed() && TrackerId(n) !in prev.trackers && TrackerId(n) !in prev.locations
    ensures var id := TrackerId(n);
            var path := NewPath(input.route, None);
            var location := LocationAt(id, Some(path.points), 0, None, input.jitter, input.now);
            Seed(prev, n, input) ==
              Store(prev.trackerIds + [id], prev.trackers[id := Tracker(id, VehicleName(n), Colors.ColorOf(input.colorDraws))],
                    prev.locations[id := location], prev.history[id := [location]], prev.paths[id := path], prev.emitted)
  {
  }

  lemma RegisteredAppend(ids: seq<string>, trackers: map<string, Tracker>, t: Tracker)
    requires Registered(ids, trackers) && t.id !in trackers
    ensures Registered(ids + [t.id], trackers[t.id := t])
  {
    var ids' := ids + [t.id];
    forall i, j | 0 <= i < j < |ids'|
      ensures ids'[i] != ids'[j]
    {
      if j == |ids| {
        assert ids[i] in trackers;
      }
    }
  }

  lemma NotYetSeeded(n: nat)
    requires 1 <= n
    ensures TrackerId(n) !in SeededIds(n - 1)
  {
    if TrackerId(n) in SeededIds(n - 1) {
      var j :| 0 <= j < n - 1 && SeededIds(n - 1)[j] == TrackerId(n);
      TrackerIdInjective(j + 1, n);
    }
  }

  /** The store one seeding iteration produces from prev when `tracker-n` is new. */
  function SeededNext(prev: Store, inputs: seq<SeedInput>, n: nat): Store
    requires 1 <= n <= |inputs| && SeedInputsOk(inputs)
  {
    var input := inputs[n - 1];
    var id := TrackerId(n);
    var path := NewPath(input.route, None);
    var location := LocationAt(id, Some(path.points), 0, None, input.jitter, input.now);
    Store(prev.trackerIds + [id], prev.trackers[id := Tracker(id, VehicleName(n), Colors.ColorOf(input.colorDraws))],
          prev.locations[id := location], prev.history[id := [location]], prev.paths[id := path], prev.emitted)
  }

  /** The new id goes to the end of the order and is not there yet. */
  lemma SeedStepIds(prev: Store, inputs: seq<SeedInput>, n: nat)
    requires 1 <= n <= |inputs| && SeedInputsOk(inputs)
    requires prev.trackerIds == SeededIds(n - 1) && Registered(prev.trackerIds, prev.trackers)
    ensures SeededNext(prev, inputs, n).trackerIds == SeededIds(n)
    ensures Registered(SeededNext(prev, inputs, n).trackerIds, SeededNext(prev, inputs, n).trackers)
  {
    var id := TrackerId(n);
    NotYetSeeded(n);
    assert SeededIds(n) == SeededIds(n - 1) + [id];
    RegisteredAppend(prev.trackerIds, prev.trackers, Tracker(id, VehicleName(n), Colors.ColorOf(inputs[n - 1].colorDraws)));
  }

  lemma SeedStepRegistry(prev: Store, inputs: seq<SeedInput>, n: nat)
    requires 1 <= n <= |inputs| && SeedInputsOk(inputs)
    requires SeededShape(prev, n - 1)
    ensures SeededShape(SeededNext(prev, inputs, n), n)
  {
    SeedStepIds(prev, inputs, n);
  }

  lemma SeedStepFresh(prev: Store, inputs: seq<SeedInput>, n: nat)
    requires 1 <= n <= |inputs| && SeedInputsOk(inputs)
    requires SeededFromEmpty(prev, inputs, n - 1)
    ensures forall i :: 1 <= i <= n ==> SeededFresh(SeededNext(prev, inputs, n), inputs, i)
  {
    var r := SeededNext(prev, inputs, n);
    forall i | 1 <= i <= n
      ensures SeededFresh(r, inputs, i)
    {
      if i < n {
        assert SeededFresh(prev, inputs, i);
        if TrackerId(i) == TrackerId(n) {
          TrackerIdInjective(i, n);
        }
      }
    }
  }

  lemma SeedStepFromEmpty(inputs: seq<SeedInput>, n: nat)
    requires 1 <= n <= |inputs| && SeedInputsOk(inputs)
    requires SeededFromEmpty(SeedUpTo(Empty(), inputs, n - 1), inputs, n - 1)
    ensures SeededFromEmpty(SeedUpTo(Empty(), inputs, n), inputs, n)
  {
    var prev := SeedUpTo(Empty(), inputs, n - 1);
    assert SeedUpTo(Empty(), inputs, n) == Seed(prev, n, inputs[n - 1]);
    NotYetSeeded(n);
    SeedNewTracker(prev, n, inputs[n - 1]);
    assert Seed(prev, n, inputs[n - 1]) == SeededNext(prev, inputs, n);
    SeedStepRegistry(prev, inputs, n);
    SeedStepFresh(prev, inputs, n);
  }

  /**
   * Seeding an empty service: ids `tracker-1` ... `tracker-n` in order, each
   * with its name, colour, a freshly generated path, the location at index 0
   * and a one-entry history holding exactly that location; nothing emitted.
   */
  lemma {:induction false} SeedUpToFromEmpty(inputs: seq<SeedInput>, n: nat)
    requires n <= |inputs| && SeedInputsOk(inputs)
    ensures SeededFromEmpty(SeedUpTo(Empty(), inputs, n), inputs, n)
  {
    if n > 0 {
      SeedUpToFromEmpty(inputs, n - 1);
      SeedStepFromEmpty(inputs, n);
    }
  }

  // ---------------------------------------------------------------------------
  // Read accessors

  /** `Array.from(trackers.values())`: the values of the tracker map in its key order. */
  function InOrder(ids: seq<string>, trackers: map<string, Tracker>): seq<Tracker>
    requires forall i :: 0 <= i < |ids| ==> ids[i] in trackers
  {
    seq(|ids|, i requires 0 <= i < |ids| => trackers[ids[i]])
  }

  function AllTrackers(s: Store): seq<Tracker>
    requires forall i :: 0 <= i < |s.trackerIds| ==> s.trackerIds[i] in s.trackers
  {
    InOrder(s.trackerIds, s.trackers)
  }

  /** The payload sent to a subscriber that joins. */
  datatype InitialState = InitialState(trackers: seq<Tracker>, locations: map<string, LocationData>,
                                       paths: map<string, PathValue>)

  function Snapshot(s: Store): InitialState
    requires forall i :: 0 <= i < |s.trackerIds| ==> s.trackerIds[i] in s.trackers
  {
    InitialState(AllTrackers(s), s.locations, s.paths)
  }

  /** `locationHistory.get(id) || []` */
  function HistoryOf(s: Store, id: string): seq<LocationData>
  {
    if id in s.history then s.history[id] else []
  }

  /** Before any tick, the snapshot lists exactly the ten seeded trackers, in seeding order. */
  lemma InitialTrackers(inputs: seq<SeedInput>)
    requires |inputs| == NumberOfTrackers && SeedInputsOk(inputs)
    ensures var r := Initialize(Empty(), inputs);
            && Registered(r.trackerIds, r.trackers)
            && Snapshot(r).trackers ==
               seq(NumberOfTrackers, i requires 0 <= i < NumberOfTrackers =>
                     Tracker(TrackerId(i + 1), VehicleName(i + 1), Colors.ColorOf(inputs[i].colorDraws)))
  {
    SeedUpToFromEmpty(inputs, NumberOfTrackers);
    var r := Initialize(Empty(), inputs);
    forall i | 0 <= i < NumberOfTrackers
      ensures Snapshot(r).trackers[i] == Tracker(TrackerId(i + 1), VehicleName(i + 1), Colors.ColorOf(inputs[i].colorDraws))
    {
      assert SeededFresh(r, inputs, i + 1);
    }
  }

  /**
   * Before any tick, each seeded tracker has its initial location, a
   * one-entry history holding it, and a path at index 0 that has points unless
   * the routing service returned a route without coordinates.
   */
  lemma InitialEntries(inputs: seq<SeedInput>, i: nat)
    requires |inputs| == NumberOfTrackers && SeedInputsOk(inputs) && 1 <= i <= NumberOfTrackers
    ensures var r := Initialize(Empty(), inputs);
            var id := TrackerId(i);
            && id in r.locations && id in r.paths
            && HistoryOf(r, id) == [r.locations[id]]
            && r.paths[id].currentPointIndex == 0
            && (|r.paths[id].points| == 0 ==>
                  Route(inputs[i - 1].route.responses).Some? &&
                  Route(inputs[i - 1].route.responses).value.coordinates == [])
  {
    SeedUpToFromEmpty(inputs, NumberOfTrackers);
    assert SeededFresh(Initialize(Empty(), inputs), inputs, i);
    NewPathNonEmpty(inputs[i - 1].route, None);
  }

  /**
   * Seeding an empty service leaves every cursor at 0, so the premise of
   * TickIndexInRange holds before the first tick and, by that lemma, after
   * every tick.
   */
  lemma InitialCursorsOk(inputs: seq<SeedInput>)
    requires |inputs| == NumberOfTrackers && SeedInputsOk(inputs)
    ensures CursorsOk(Initialize(Empty(), inputs))
  {
    SeedUpToFromEmpty(inputs, NumberOfTrackers);
    var r := Initialize(Empty(), inputs);
    forall k | k in r.paths
      ensures CursorOk(r.paths[k])
    {
      assert k in r.trackers;
      var j :| 0 <= j < |r.trackerIds| && r.trackerIds[j] == k;
      assert k == TrackerId(j + 1);
      assert SeededFresh(r, inputs, j + 1);
    }
  }

  /** Histories only grow: a tick keeps each known history as a prefix, and unknown ids stay empty. */
  lemma TickHistoryGrows(s: Store, inputs: seq<TickInput>, id: string)
    requires |inputs| == |s.trackerIds| && TickInputsOk(inputs) && Registered(s.trackerIds, s.trackers)
    ensures HistoryOf(s, id) <= HistoryOf(Tick(s, inputs), id)
    ensures id !in s.history ==> HistoryOf(Tick(s, inputs), id) == []
  {
    TickEffect(s, inputs);
    var r := Tick(s, inputs);
    if id in s.history {
      assert r.history[id][..|s.history[id]|] == s.history[id];
    }
  }
}
