/**
  The obstacle detector's "current obstacle" record and its staleness query.
  The repository has two copies: the standalone class in obstacle_sensor.py,
  which keeps only obstacles whose type id contains "vehicle", and the class
  in manual_control.py that the world actually creates, which keeps every
  obstacle whose type id does not contain "static" and also counts its
  callbacks. Both replace the record wholesale and share the same query.

  Times are seconds of the wall clock (`time.time()`), passed in as `now`.
  The query compares the age in seconds against `maxAge`, although the
  source names that parameter in milliseconds.
 */
module Obstacles {
  import opened Wrappers

  /** What the simulator's obstacle detector delivers to the callback. */
  datatype ObstacleEvent = ObstacleEvent(otherActorTypeId: string, frame: int, timestamp: real, distance: real)

  /** The stored record; `myTimeStamp` is the wall-clock time of the callback. */
  datatype Obstacle = Obstacle(typeId: string, frame: int, timestamp: real, distance: real, myTimeStamp: real)

  /** Python's `sub in s` on strings: `sub` occurs in `s` at some position. */
  predicate Contains(s: string, sub: string)
    ensures Contains(s, sub) ==> |sub| <= |s|
    ensures |sub| <= |s| && s[..|sub|] == sub ==> Contains(s, sub)
    decreases |s|
  {
    if |s| < |sub| then false
    else s[..|sub|] == sub || Contains(s[1..], sub)
  }

  /** The record the callback builds from an event received at `now`. */
  function Record(e: ObstacleEvent, now: real): (o: Obstacle)
    ensures o.distance == e.distance && o.myTimeStamp == now && o.typeId == e.otherActorTypeId
  {
    Obstacle(e.otherActorTypeId, e.frame, e.timestamp, e.distance, now)
  }

  /**
    The query `getCurrentObstacleDictance`: the stored distance while the
    record is younger than `maxAge`, otherwise 0.0; 0.0 when nothing is stored.
   */
  function CurrentDistance(current: Option<Obstacle>, maxAge: real, now: real): (d: real)
    ensures current.None? ==> d == 0.0
    ensures current.Some? && now - current.value.myTimeStamp < maxAge ==> d == current.value.distance
    ensures current.Some? && now - current.value.myTimeStamp >= maxAge ==> d == 0.0
  {
    match current
    case None => 0.0
    case Some(o) => if now - o.myTimeStamp < maxAge then o.distance else 0.0
  }

  /** An accepted event is reported at once, for any positive age limit. */
  lemma FreshAfterCallback(e: ObstacleEvent, now: real, maxAge: real)
    requires maxAge > 0.0
    ensures CurrentDistance(Some(Record(e, now)), maxAge, now) == e.distance
  {
  }

  /** An age exactly equal to the limit already counts as stale. */
  lemma StaleAtLimit(o: Obstacle, maxAge: real)
    ensures CurrentDistance(Some(o), maxAge, o.myTimeStamp + maxAge) == 0.0
  {
  }

  /** Once stale, a record stays stale as the clock advances. */
  lemma StaleStaysStale(current: Option<Obstacle>, maxAge: real, now: real, later: real)
    requires current.Some? && now - current.value.myTimeStamp >= maxAge
    requires now <= later
    ensures CurrentDistance(current, maxAge, now) == 0.0
    ensures CurrentDistance(current, maxAge, later) == 0.0
  {
  }

  /**
    The warning lamp passes 1000 as the limit, meant as one second: compared
    against seconds, a reading two seconds old is still reported.
   */
  lemma CallerLimitIsSeconds(o: Obstacle)
    ensures CurrentDistance(Some(o), 1000.0, o.myTimeStamp + 2.0) == o.distance
    ensures CurrentDistance(Some(o), 1000.0, o.myTimeStamp + 1000.0) == 0.0
  {
  }

  /**
    obstacle_sensor.py as it stands imports neither `time` nor `carla`. Its
    callback builds the record with `time.time()` before storing it, so an
    accepted event raises NameError and the record is never replaced.
   */
  datatype Outcome<T> = Stored(value: T) | NameError

  /** The callback of obstacle_sensor.py as written. */
  function StandaloneCallbackAsWritten(current: Option<Obstacle>, e: ObstacleEvent): (r: Outcome<Option<Obstacle>>)
    ensures r.NameError? <==> Contains(e.otherActorTypeId, "vehicle")
    ensures r.Stored? ==> r.value == current
  {
    if Contains(e.otherActorTypeId, "vehicle") then NameError else Stored(current)
  }

  /**
    The query of obstacle_sensor.py as written: with no record it answers
    0.0; with one, `time.time()` raises NameError, which the `except` turns
    into 0.0 as well.
   */
  function StandaloneQueryAsWritten(current: Option<Obstacle>, maxAge: real): (d: real)
    ensures d == 0.0
  {
    match current
    case None => 0.0
    case Some(_) => 0.0
  }

  /**
    As written, the standalone sensor never reports an obstacle: the event
    that the intended callback and query report at once is lost, and even a
    stored record would be answered with 0.0.
   */
  lemma StandaloneAsWrittenNeverReports(e: ObstacleEvent, now: real, maxAge: real)
    requires Contains(e.otherActorTypeId, "vehicle") && e.distance != 0.0 && maxAge > 0.0
    ensures StandaloneCallbackAsWritten(None, e).NameError?
    ensures StandaloneQueryAsWritten(Some(Record(e, now)), maxAge) == 0.0
    ensures CurrentDistance(Some(Record(e, now)), maxAge, now) == e.distance != 0.0
  {
    FreshAfterCallback(e, now, maxAge);
  }

  /**
    The standalone sensor of obstacle_sensor.py, with the `time` and `carla`
    imports it evidently relies on (manual_control.py imports both).
   */
  class VehicleObstacleSensor {
    /** `__current_obstacle`: empty until the first accepted event. */
    var current: Option<Obstacle>

    constructor ()
      ensures current == None
    {
      current := None;
    }

    /** `__obstacle_callback`: replaces the record when the other actor is a vehicle. */
    method OnObstacle(e: ObstacleEvent, now: real)
      modifies this
      ensures Contains(e.otherActorTypeId, "vehicle") ==> current == Some(Record(e, now))
      ensures !Contains(e.otherActorTypeId, "vehicle") ==> current == old(current)
    {
      if Contains(e.otherActorTypeId, "vehicle") {
        current := Some(Record(e, now));
      }
    }

    /** `getCurrentObstacleDictance`: a non-zero answer is a fresh record's distance. */
    function GetCurrentObstacleDistance(maxAge: real, now: real): (d: real)
      reads this
      ensures current.None? ==> d == 0.0
      ensures d != 0.0 ==> current.Some? && d == current.value.distance && now - current.value.myTimeStamp < maxAge
      ensures current.Some? && now - current.value.myTimeStamp < maxAge ==> d == current.value.distance
      ensures current.Some? && now - current.value.myTimeStamp >= maxAge ==> d == 0.0
    {
      CurrentDistance(current, maxAge, now)
    }
  }

  /** The sensor class of manual_control.py, the one the world creates. */
  class NonStaticObstacleSensor {
    var current: Option<Obstacle>
    /** `__obstacle_sensor_callback_counter`: every callback, accepted or not. */
    var callbackCounter: int

    constructor ()
      ensures current == None && callbackCounter == 0
    {
      current := None;
      callbackCounter := 0;
    }

    /** `__obstacle_callback`: counts the event, replaces the record unless the actor is static. */
    method OnObstacle(e: ObstacleEvent, now: real)
      modifies this
      ensures callbackCounter == old(callbackCounter) + 1
      ensures !Contains(e.otherActorTypeId, "static") ==> current == Some(Record(e, now))
      ensures Contains(e.otherActorTypeId, "static") ==> current == old(current)
    {
      callbackCounter := callbackCounter + 1;
      if !Contains(e.otherActorTypeId, "static") {
        current := Some(Record(e, now));
      }
    }

    /** `getCurrentObstacleDictance`: a non-zero answer is a fresh record's distance. */
    function GetCurrentObstacleDistance(maxAge: real, now: real): (d: real)
      reads this
      ensures current.None? ==> d == 0.0
      ensures d != 0.0 ==> current.Some? && d == current.value.distance && now - current.value.myTimeStamp < maxAge
      ensures current.Some? && now - current.value.myTimeStamp < maxAge ==> d == current.value.distance
      ensures current.Some? && now - current.value.myTimeStamp >= maxAge ==> d == 0.0
    {
      CurrentDistance(current, maxAge, now)
    }
  }
}
