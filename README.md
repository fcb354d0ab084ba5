# Live tracker simulation engine, modelled in Dafny

This project models the core of a live vehicle tracker. The system's
`TrackingService` keeps four maps: trackers, current locations, location
histories and paths. At start-up it seeds ten trackers. Each one gets a path
from a routing service, with a retry policy and a synthetic random-walk
fallback. After that, a recurring tick moves every tracker one point along its
path, records the new location and emits it to subscribers. Read accessors
return the tracker list, a snapshot for a joining subscriber and one
tracker's history. The shared `getRandomColor` helper gives each tracker its
colour.

Layout:

- `types.dfy` (`Types`): `Option`, map lookup, and the value records `Tracker`, `LocationData`, `PathPoint` and `Displacement`.
- `colors.dfy` (`Colors`): `getRandomColor`. A `for` loop appends six hex digits after `#`. It is proved against `ColorOf`.
- `naming.dfy` (`Naming`): the `tracker-i` ids and `Vehicle i` names. Decimal printing is proved injective.
- `routing.dfy` (`Routing`): `generatePath` as pure logic plus two loop methods:
  - `RequestRoute` is the three-attempt retry loop. It retries only on a 404.
  - `RandomWalk` is the ten-step fallback walk.
  - `NewPath` is what a whole call returns.
- `simulation.dfy` (`Simulation`): the service state as a value (`Store`), with specification functions:
  - `Step` and `Tick` for the tick;
  - `Seed` and `Initialize` for seeding;
  - `AllTrackers`, `Snapshot` and `HistoryOf` for the readers.

  The lemmas here state what a tick and seeding promise.
- `service.dfy` (`Service`): the classes `TrackerPath` and `TrackingService`.
  - Each method that changes the service is proved to move `Model()` exactly as the matching `Simulation` function says.
  - A path is a heap object whose cursor the tick updates in place.
  - This reproduces the aliasing of the tick body. On exhaustion a new path object is stored, and the reset to 0 is written to the object held before. The index read is that old object's cursor, 0, and the point comes from the new path in the map. `StepTracker` and `AdvancePath` state this.

What the outside world decides becomes an input:

- Each `generatePath` call takes a `RouteInputs`:
  - the outcomes of its routing requests (`RouteOutcome`: a body with features, an error with an HTTP status, or an error without a response);
  - the ten displacement steps of the fallback walk.
- Each tracker in a tick or seeding iteration also takes the jitter displacement and the clock value `now`.
- Seeding takes six colour draws in `0..15` per tracker.
- Coordinates are `real`s.
- `emitLocationUpdate` appends to the `emitted` sequence.

Where the behaviour is specific to the JavaScript source, the model follows the code:

- A 200 response with an empty `features` array throws inside the `try`. The error has no `.response`, so the loop ends and the fallback is used.
- The coordinate list of a successful route is taken as it is, even when empty. The tick then regenerates such a path on every step.
- `locationHistory.get(id)?.push(...)` appends nothing for a tracker without a history entry. The location is still stored and emitted.
- The jitter base `currentLoc?.lat || baseLat` treats a stored coordinate of exactly 0 like a missing one (`OrBase`).
- The tick visits trackers in the insertion order of the tracker map (`trackerIds`).

A route whose coordinate list is empty yields a path with no points, and the
code accepts it. The cursor of such a path cannot be on a point, so
`TickIndexInRange` is stated for paths that have points, and `InitialEntries`
names the only way a seeded path can be empty.

## Model

| member | source | states |
|---|---|---|
| Colors.RandomColor | packages/shared/src/utils.ts:14-21 | The loop builds `#` followed by `letters[d1]` … `letters[d6]`, seven characters in all, equal to `ColorOf(draws)` |
| Colors.ColorOfShape | packages/shared/src/utils.ts:15-20 | A colour has length 7, starts with `#`, and each later character is the drawn hex letter, so it lies in `0123456789ABCDEF` |
| Colors.HexDigitsAt | packages/shared/src/utils.ts:17-19 | The k-th appended character is `letters[draws[k]]`, one per draw |
| Naming.DecimalStringInjective | apps/api/src/tracking/tracking.service.ts:135 | Two numbers with the same decimal rendering are equal |
| Naming.TrackerIdInjective | apps/api/src/tracking/tracking.service.ts:135 | `tracker-${i}` ids of different i differ, so seeding never overwrites an earlier tracker |
| Routing.RouteFromCharacterized | apps/api/src/tracking/tracking.service.ts:61-99 | Attempts from k yield a route iff some attempt j in budget is usable and every earlier one failed with 404, and then the route is that response's first feature |
| Routing.AllNotFoundGivesNoRoute | apps/api/src/tracking/tracking.service.ts:91-99 | Three 404 failures leave no route, so the fallback is taken |
| Routing.RequestRoute | apps/api/src/tracking/tracking.service.ts:60-100 | The loop makes 1 to 3 attempts. Each attempt before the last was a 404. A route is returned iff the last attempt was usable, and it is that response's first feature. An early stop means a non-retryable failure |
| Routing.ToPointsAt | apps/api/src/tracking/tracking.service.ts:82 | Same count and order, each `[lng, lat]` becomes `{lat, lng}` |
| Routing.FallbackOrigin | apps/api/src/tracking/tracking.service.ts:105-110 | The walk starts at the stored location, or at the Jakarta origin when none is stored |
| Routing.WalkStep | apps/api/src/tracking/tracking.service.ts:111-124 | The walk has one point per step, and point k is point k-1 (or the origin) moved by step k |
| Routing.RandomWalk | apps/api/src/tracking/tracking.service.ts:111-124 | The loop produces exactly `PATH_LENGTH` (10) points, equal to `WalkFrom(origin, steps)` |
| Routing.NewPath | apps/api/src/tracking/tracking.service.ts:85-130 | Every generated path starts at index 0 |
| Routing.RoutedPathShape | apps/api/src/tracking/tracking.service.ts:80-90 | When a route comes back, the path holds its converted coordinates in order with index 0, and `distance`/`duration` come from the summary (absent without a summary) |
| Routing.FallbackPathShape | apps/api/src/tracking/tracking.service.ts:101-130 | With no route, the path is the 10-point walk from the fallback origin, with index 0 and no distance or duration |
| Routing.NewPathNonEmpty | apps/api/src/tracking/tracking.service.ts:58-131 | A generated path is empty only when a route came back with no coordinates |
| Routing.PlanPath | apps/api/src/tracking/tracking.service.ts:58-131 | The retry loop then either the route conversion or the walk computes `NewPath` |
| Simulation.NextPath | apps/api/src/tracking/tracking.service.ts:176-182 | The stored cursor advances by exactly one while it stays on the path, and otherwise the new path is stored at index 0 |
| Simulation.JitterLocation | apps/api/src/tracking/tracking.service.ts:198-212 | The location carries the id and `now`. Each coordinate is the stored one plus the jitter, or Jakarta's plus the jitter when no location is stored or the stored coordinate is exactly 0 |
| Simulation.Step | apps/api/src/tracking/tracking.service.ts:172-193 | A step never changes the tracker registry or the sets of trackers with a path and with a history |
| Simulation.StepEffect | apps/api/src/tracking/tracking.service.ts:173-192 | A tracker without a path is skipped and nothing changes. Otherwise it is advanced: the location is the point under the cursor (or the jitter fallback) with that id and time, it is appended to the history if one exists, and exactly it is emitted. Every other tracker is untouched |
| Simulation.Tick | apps/api/src/tracking/tracking.service.ts:169-196 | A tick never adds or removes a tracker, a path or a history, and only appends to the emitted updates |
| Simulation.TickEffect | apps/api/src/tracking/tracking.service.ts:169-196 | A tick advances each tracker with a path once and leaves trackers without a path untouched. The updates it emits are the new locations of the trackers with a path, in insertion order, after those emitted before. Histories only grow, by at most one entry each |
| Simulation.TickIndexInRange | apps/api/src/tracking/tracking.service.ts:176-186 | From cursors in order, a tick keeps them in order, and every stored path with points has its index inside it |
| Simulation.InitialCursorsOk | apps/api/src/tracking/tracking.service.ts:133-148 | After seeding an empty service every cursor is in order, so `TickIndexInRange` applies from the first tick on |
| Simulation.TickHistoryGrows | apps/api/src/tracking/tracking.service.ts:183-188 | A tracker's history before a tick is a prefix of its history after, and an unknown id's history stays empty |
| Simulation.RegisterKeepsRegistered | apps/api/src/tracking/tracking.service.ts:136-140 | `trackers.set` keeps the key order duplicate-free and in step with the map |
| Simulation.Seed | apps/api/src/tracking/tracking.service.ts:134-147 | One iteration registers `tracker-i` as `Vehicle i` with its drawn colour and gives it a path at index 0, a location and a one-entry history holding that location. No key is lost and nothing is emitted |
| Simulation.SeedUpTo | apps/api/src/tracking/tracking.service.ts:133-148 | After n iterations `tracker-1` … `tracker-n` each have a tracker, a path, a location and a history entry. No key is lost and nothing is emitted |
| Simulation.Initialize | apps/api/src/tracking/tracking.service.ts:133-148 | After seeding, `tracker-1` … `tracker-10` each have all four entries. No key is lost and nothing is emitted |
| Simulation.SeededIdsDistinct | apps/api/src/tracking/tracking.service.ts:134-135 | The ids `tracker-1` … `tracker-n` are pairwise distinct |
| Simulation.SeedUpToFromEmpty | apps/api/src/tracking/tracking.service.ts:133-148 | After n seeding iterations on an empty service, the ids are `tracker-1` … `tracker-n` in order. Each has its name and colour, a generated path, the location at index 0 and a one-entry history holding exactly that location. Nothing is emitted |
| Simulation.InitialTrackers | apps/api/src/tracking/tracking.service.ts:133-148 | After seeding, the tracker list is exactly `tracker-1`…`tracker-10` with names `Vehicle i` and their drawn colours, in order |
| Simulation.InitialEntries | apps/api/src/tracking/tracking.service.ts:141-146 | After seeding, each tracker's history is one entry equal to its location. Its path is at index 0 and has points unless the route came back empty |
| Service.TrackingService.constructor | apps/api/src/tracking/tracking.service.ts:37-40 | A new service has empty maps, no trackers and nothing emitted |
| Service.TrackingService.GeneratePath | apps/api/src/tracking/tracking.service.ts:58-131 | Returns a fresh path object whose value is `NewPath` for the tracker's stored location |
| Service.TrackingService.LocationFromPath | apps/api/src/tracking/tracking.service.ts:150-167 | The result carries the id and `now`. It has the stored path's point when the index is on it, and otherwise the jittered location around the stored one or Jakarta |
| Service.TrackingService.AdvancePath | apps/api/src/tracking/tracking.service.ts:173-182 | Stored path values change only as `NextPath` says. On exhaustion the map holds a fresh object, and the returned old object's cursor is 0 |
| Service.TrackingService.ReplacePath | apps/api/src/tracking/tracking.service.ts:178-182 | A fresh generated path is stored under the id, no other key changes, and the previous object's cursor is reset to 0 |
| Service.TrackingService.Record | apps/api/src/tracking/tracking.service.ts:187-192 | The location is stored, appended to the history only if there is one, and emitted |
| Service.TrackingService.StepTracker | apps/api/src/tracking/tracking.service.ts:172-193 | One tracker's step moves the service exactly as `Step`, keeps the invariant, and reproduces the reset on the old path object |
| Service.TrackingService.SimulationTick | apps/api/src/tracking/tracking.service.ts:169-196 | The tick loop over trackers in insertion order moves the service exactly as `Tick` |
| Service.TrackingService.InitializeTrackers | apps/api/src/tracking/tracking.service.ts:133-148 | The seeding loop for i = 1..10 moves the service exactly as `Initialize` |
| Service.TrackingService.SeedTracker | apps/api/src/tracking/tracking.service.ts:134-147 | One seeding iteration moves the service exactly as `Seed` |
| Service.TrackingService.SetTracker | apps/api/src/tracking/tracking.service.ts:136-140 | `trackers.set` as `Register`, keeping the registry consistent |
| Service.TrackingService.StorePath | apps/api/src/tracking/tracking.service.ts:142-143 | A freshly generated path object is stored under the id |
| Service.TrackingService.PlaceTracker | apps/api/src/tracking/tracking.service.ts:144-146 | The location at index 0 is stored and starts a one-entry history |
| Service.TrackingService.GetAllTrackers | apps/api/src/tracking/tracking.service.ts:214-216 | Every registered tracker exactly once, in insertion order, and nothing else |
| Service.TrackingService.GetInitialState | apps/api/src/tracking/tracking.service.ts:218-224 | The tracker list with the current location and path maps, equal to `Snapshot` of the model |
| Service.TrackingService.GetTrackerHistory | apps/api/src/tracking/tracking.service.ts:226-228 | The stored history for a known id, and an empty sequence, not an error, for an unknown one. It equals `HistoryOf` on the model, so `TickHistoryGrows` speaks about it |

## Left out

- The routing HTTP request (`axios.post`), its URL, headers and API key lookup. The response or error of each request is an input.
- Sampling of start and end points in the bounding box. Their only effect is on the routing response, which is an input.
- The sine/cosine random walk and the km-to-degree conversion. Each walk step is an input displacement, and the model proves how the steps compose.
- The random offset in `generateRandomLocation`. It is an input displacement. The zero-is-missing base rule is modelled.
- `Date.now()`, which is an input `now`.
- Logging (`Logger`). It has no effect on state.
- `setInterval`, the fire-and-forget async wrappers, the un-awaited `initializeTrackers` call in `onModuleInit`, and ticks that might overlap while a routing call is pending. A tick and the seeding loop are modelled as sequential runs to completion.
- `emitInitialState`, the gateway and the controller. They are transport adapters.
- `formatTimestamp` in the shared utilities. It is not part of this model.
- Floating point: coordinates are exact reals, so rounding is not modelled.
- TickHistoryGrows: states that histories grow by appending but not that timestamps are non-decreasing, because the clock is an input and the model does not constrain it.
- TickIndexInRange: states the index bound only for paths that have points, because a route returned with no coordinates yields an empty path in the code.
