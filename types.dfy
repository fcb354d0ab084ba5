/** Values shared by the API and the UI: trackers, locations and path points. */
module Types {

  datatype Option<+T> = None | Some(value: T)

  /** Map lookup that answers None for a missing key, as `Map.get` answers `undefined`. */
  function Get<K, V>(m: map<K, V>, k: K): (r: Option<V>)
    ensures r.Some? <==> k in m
    ensures r.Some? ==> r.value == m[k]
  {
    if k in m then Some(m[k]) else None
  }

  /** A simulated vehicle; never changed after it is registered. */
  datatype Tracker = Tracker(id: string, name: string, color: string)

  /** One reported position; `timestamp` is in milliseconds since the epoch. */
  datatype LocationData = LocationData(trackerId: string, lat: real, lng: real, timestamp: int)

  datatype PathPoint = PathPoint(lat: real, lng: real)

  /** A change of position in degrees, produced by the random walk or the jitter. */
  datatype Displacement = Displacement(dLat: real, dLng: real)

  function Moved(p: PathPoint, d: Displacement): PathPoint
  {
    PathPoint(p.lat + d.dLat, p.lng + d.dLng)
  }
}
