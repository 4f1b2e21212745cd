# AEBS decision layer of the CARLA manual-control client

This project models the automatic emergency braking system (AEBS) of a CARLA
`manual_control.py` client. It covers the decision layer, plus the small
bounded data-structure updates around it.

The AEBS parts:

- **Warning lamp (`Warnleuchte`).** It classifies each frame into one of seven
  lamp states, using a driving-school stopping envelope. After a reset it
  first runs a ticker-driven self-test.
- **AEBS supervisor (`AEBS`).** This covers the on/off switch,
  auto-activation at 15 km/h, and one pass of the background loop. That pass
  escalates from a beep, to a double beep, to a full brake.
- **Distance sources.** These are the vision estimate computed from a
  semantic-segmentation image, the obstacle detector's "current obstacle"
  record (both copies of it), and the HUD's nearest-vehicle distance.

The smaller updates:

- The collision history, capped at 4000 entries.
- The keyboard throttle, brake and steering ramps, and the gear keys.
- The camera, weather and map-layer index cycling.
- Display-name truncation.

Speeds and distances are exact `real`s. Simulator calls, sound and drawing
are not executed: what the AEBS loop sends to the simulator is returned as data
(`AebsLoop.Command`), and camera sensor spawns are counted. The wall clock (`time.time()`), the
frame time, held keys and the player's speed are parameters.

The model follows the code where it differs from what the names, comments
and messages in the code suggest:

- **The loop ignores `active`.** The AEBS loop never consults `active`. It
  runs whenever constant-velocity mode is on.
- **The override is an input.** The override flag `g_player_action` is only
  ever assigned to a local variable in `_parse_vehicle_keys`. So the global
  stays `False`, and the model takes the flag as an input to each pass.
- **Escalation cascades.** The checks run in sequence, so a distance below
  2 m escalates from idle to full braking in one pass. A distance of 0 also
  counts as "very close".
- **Staleness uses seconds.** The staleness limit is named in milliseconds
  but is compared against seconds. The lamp passes 1000, so a reading stays
  "fresh" for 1000 s (`Obstacles.CallerLimitIsSeconds`).
- **Two obstacle filters.** The sensor that `manual_control.py` creates keeps
  any obstacle whose type id does not contain `static`. The standalone copy
  in `obstacle_sensor.py` keeps only `vehicle` obstacles. Both are modelled.
- **The lamp is a class object.** `Warnleuchte` is used as the class object
  itself, never as an instance. Its class attributes are the fields of
  `Warnleuchte.Warnleuchte`, and its constructor gives their defaults.
- **Self-test timing.** The self-test ticker starts at 1 and is incremented
  before each test. So the first call already shows tick 2, NOT_INIT is shown
  18 times rather than 20, and the 80–89 branch is unreachable.
- **Ctrl+W only switches the mode on.** Switching constant-velocity mode off
  calls a misspelt method (`disalbe_constant_velocity`) on the second vehicle.
  That raises AttributeError before the flag is cleared, so the mode is on
  after every press (`World.World.ToggleConstantVelocity`).
- **Auto-activation depends on the info panel.** The AEBS speed and distance
  are refreshed, and `activate_at_speed` runs, from the HUD's tick. The tick
  returns early while the info panel is hidden (`Hud.Tick`).
- **The standalone obstacle sensor lacks its imports.** obstacle_sensor.py
  imports neither `time` nor `carla`; see "## Findings". The class
  `Obstacles.VehicleObstacleSensor` models it with those imports in place.

## Model

| member | source | states |
|---|---|---|
| Envelope.StopDistance | manual_control.py:758-766 | the stopping distance is positive at any positive speed and zero at standstill |
| Envelope.BrakingNonNegative | manual_control.py:758-762 | the halved braking distance (v/10)²/2 is never negative |
| Envelope.ReactionDistance | manual_control.py:759-763 | the halved reaction distance has the sign of the speed: positive above 0, zero at 0, negative below |
| Envelope.WarnLow | manual_control.py:766-767 | at a positive speed the early threshold exceeds the stopping distance |
| Envelope.WarnHigh | manual_control.py:766-768 | at a positive speed the urgent threshold lies strictly between the stopping distance and the early threshold |
| Envelope.ThresholdsOrdered | manual_control.py:766-768 | for a positive speed, 0 < stop distance < urgent threshold (1.2×) < early threshold (1.5×) |
| Envelope.EnvelopeAtZero | manual_control.py:758-768 | at standstill the braking, reaction and stopping distances and both thresholds are 0 |
| Envelope.EnvelopeAt20 | manual_control.py:758-768 | at 20 km/h: braking 2 m, reaction 3 m, stop 5 m, thresholds 7.5 m and 6 m |
| Envelope.StopDistanceMonotone | manual_control.py:758-768 | a higher speed never gives a shorter stopping distance or lower thresholds |
| Warnleuchte.Colour | manual_control.py:856-878 | red exactly for the two warnings and UNFALL; black exactly for AUS, orange for ERROR, white for NOT_INIT, green for INIT |
| Warnleuchte.LampCount | manual_control.py:880-907 | one to three circles; three exactly for UNFALL, two exactly for WARNUNG_HIGH |
| Warnleuchte.Classify | manual_control.py:718-790 | never UNFALL or NOT_INIT; ERROR iff world or AEBS missing; AUS iff AEBS inactive or reverse gear; WARNUNG_HIGH iff active, forward, ≥ 15 km/h and 0 < selected distance ≤ 1.2× stop; WARNUNG_LOW iff the same with 1.2× stop < distance ≤ 1.5× stop |
| Warnleuchte.ClassifyDistanceRange | manual_control.py:769-778 | at ≥ 15 km/h the distance test yields only INIT, WARNUNG_LOW or WARNUNG_HIGH (the final `else` is dead), and INIT iff distance ≤ 0 or beyond 1.5× stop |
| Warnleuchte.SlowIsReady | manual_control.py:749-754 | an active, forward-moving AEBS below 15 km/h shows INIT whatever the distance |
| Warnleuchte.AebsDistanceIgnored | manual_control.py:738-744 | the AEBS's own distance never changes the lamp state; only the obstacle reading or `g_least_distance` does |
| Warnleuchte.UrgentAt20 | manual_control.py:740-772 | at 20 km/h an obstacle reading of 1.8 m gives WARNUNG_HIGH |
| Warnleuchte.SelectedDistance | manual_control.py:740-744 | the obstacle reading when it is positive, otherwise `g_least_distance`; positive iff either source is |
| Warnleuchte.ClassifyDistance | manual_control.py:769-779 | only INIT, WARNUNG_LOW or WARNUNG_HIGH; no distance (≤ 0) gives INIT; WARNUNG_HIGH iff 0 < distance ≤ urgent threshold; WARNUNG_LOW only between the two thresholds |
| Warnleuchte.SelfTestFrame | manual_control.py:797-837 | never UNFALL; nothing painted (the check ends) iff the ticker is outside 0..69 and 80..89; NOT_INIT exactly on 0..19 and 80..89 |
| Warnleuchte.CheckFrame | manual_control.py:797-837 | once checked nothing changes or is painted; otherwise the ticker goes up by one, the frame for the new ticker is painted, and the check ends exactly when nothing was painted |
| Warnleuchte.CheckFramePreserves | manual_control.py:797-837 | one self-test call keeps ticker in 1..69 (or 70 once checked), never paints UNFALL, never reaches tick 80 |
| Warnleuchte.FramesFollowSchedule | manual_control.py:797-837 | from any reachable self-test state, n calls paint the schedule from the current ticker, and the check is over iff ticker + n reaches 70 |
| Warnleuchte.SelfTestSequence | manual_control.py:792-837 | after `reset`: NOT_INIT ×18, then ERROR, INIT, AUS, WARNUNG_LOW, WARNUNG_HIGH ×10 each; the 69th call ends the check without painting; UNFALL and a second NOT_INIT phase never appear |
| Warnleuchte.Warnleuchte.constructor | manual_control.py:706-710 | no world, NOT_INIT, self-test pending at ticker 1 |
| Warnleuchte.Warnleuchte.SetWorld | manual_control.py:712-713 | stores the world link |
| Warnleuchte.Warnleuchte.Reset | manual_control.py:792-795 | the self-test restarts at ticker 1, unchecked |
| Warnleuchte.Warnleuchte.DisplayCheck | manual_control.py:797-839 | one call advances the self-test as `CheckFrame` says and the lamp state becomes what was painted |
| Warnleuchte.Warnleuchte.AktualisiereZustand | manual_control.py:718-790 | the new lamp state is `Classify` of what the frame read; an active AEBS has its speed and distance refreshed, an inactive one is untouched |
| Warnleuchte.Warnleuchte.Render | manual_control.py:847-853 | no display: neither the lamp nor the AEBS changes; during the self-test one `CheckFrame`, the lamp state becomes what was painted and the AEBS is untouched; afterwards the painted state is the classification, and an active AEBS has its speed and distance refreshed while an inactive one is untouched; the self-test invariant is kept |
| Warnleuchte.OnAebsKey | manual_control.py:438-441 | the K_u key flips `active` (beep when switching off) and restarts the lamp's self-test; the lamp's world link and lamp state are kept |
| AebsLoop.FirstAlert | manual_control.py:1165-1167 | idle, under 4 m and no override: stage 1 and one beep; otherwise the pass is unchanged; the mode is kept |
| AebsLoop.SecondAlert | manual_control.py:1168-1173 | stage 1, under 3 m and no override: stage 2 and two beeps; otherwise unchanged; the mode is kept |
| AebsLoop.FullBrake | manual_control.py:1174-1178 | stage 2, under 2 m and no override: stage 3, constant velocity off, full brake; otherwise unchanged |
| AebsLoop.Release | manual_control.py:1179-1181 | stage 3, standstill and no override: back to idle with the brake released; otherwise unchanged |
| AebsLoop.Override | manual_control.py:1182-1184 | with an override: idle and the brake released; without: unchanged |
| AebsLoop.Body | manual_control.py:1165-1184 | the stage stays in 0..3; the pass can only switch constant velocity off; an override ends idle with a brake release; holding at stage 3 while moving issues nothing |
| AebsLoop.Step | manual_control.py:1163-1184 | nothing happens unless constant-velocity mode is on; the stage stays in 0..3; the pass never switches the mode back on |
| AebsLoop.BodyCharacterised | manual_control.py:1165-1184 | the new stage is the larger of the old stage and the number of thresholds (4, 3, 2 m) the distance is below, reset to 0 by standstill in stage 3 or by an override; constant-velocity mode ends exactly when the 2→3 step fires |
| AebsLoop.BodyBrakes | manual_control.py:1174-1184 | a full brake is applied iff the 2→3 step fires; the brake is released iff override, or standstill at stage 3 |
| AebsLoop.OverrideResets | manual_control.py:1182-1184 | with an override the pass only releases the brake and returns to idle |
| AebsLoop.CascadeInOnePass | manual_control.py:1165-1178 | from idle, under 2 m while moving: three beeps, constant velocity off, full brake, stage 3, all in one pass |
| AebsLoop.Run | manual_control.py:1163-1184 | the inner loop yields at most one state per reading; the first is the state after one pass; every state but the last keeps constant-velocity mode on; it stops early only when the mode was off from the start or the last pass switched it off |
| AebsLoop.RunMonotone | manual_control.py:1163-1184 | without override and standstill the stage never decreases and stays within 0..3 |
| AebsLoop.ClosingInScenario | manual_control.py:1163-1178 | closing in at 5, 3.5, 2.5, 1.5 m walks through stages 0, 1, 2, 3 and ends constant-velocity mode |
| World.World.constructor | manual_control.py:236-248 | weather index 0, map layer 0, constant velocity off, an AEBS that is active at speed 0 and stage 0 with no distance, an empty obstacle record |
| World.World.NextWeather | manual_control.py:347-349 | the weather index moves one step forward or back and wraps |
| World.World.NextMapLayer | manual_control.py:354-356 | the map-layer index moves one step forward or back and wraps over the 11 layers |
| World.World.ToggleConstantVelocity | manual_control.py:474-484 | with the mode off, Ctrl+W switches it on; with the mode on, the misspelt `disalbe_constant_velocity` raises before the flag is cleared; either way the mode is on afterwards |
| World.Aebs.constructor | manual_control.py:1136-1146 | active, speed 0, no distance, stage 0 |
| World.Aebs.ToggleAebs | manual_control.py:1149-1158 | `active` is negated (so toggling twice restores it); the beep sounds exactly when switching off |
| World.Aebs.ActivateAtSpeed | manual_control.py:1199-1202 | afterwards active iff it was active or the speed is ≥ 15; it never switches off |
| World.Aebs.GetCurrentSpeed | manual_control.py:1186-1192 | stores the speed and auto-activates at ≥ 15 km/h |
| World.Aebs.GetCurrentDistance | manual_control.py:1194-1196 | the AEBS distance becomes `g_distance` |
| World.Aebs.TestPass | manual_control.py:1163-1184 | with constant velocity off nothing changes; with no distance yet the comparison raises; otherwise stage, mode and commands are those of `AebsLoop.Step` |
| DistanceSensor.PerceivedPixelCount | manual_control.py:1431-1443 | the count is the largest per-row number of pixels with channel 2 = 10 (0 for none), and at most the row length |
| DistanceSensor.PinholeDistance | manual_control.py:1444-1450 | count 0 gives 0; otherwise distance × count = width × focal length |
| DistanceSensor.CloserWhenWider | manual_control.py:1444-1446 | more vehicle pixels never mean a larger distance, and every estimate is positive |
| DistanceSensor.DistanceSensor.constructor | manual_control.py:1285-1289 | the sensor keeps the lead vehicle's half-length, the only part of `parent_actor_2` the estimate reads |
| DistanceSensor.DistanceSensor.GetDistance | manual_control.py:1431-1451 | the result is the pinhole distance of the widest vehicle row for the lead car's length, and `g_distance` is set to it |
| Obstacles.Contains | obstacle_sensor.py:54 | Python's substring test `sub in s`: a match implies sub is no longer than s, and a prefix match is a match |
| Obstacles.StandaloneCallbackAsWritten | obstacle_sensor.py:53-55 | as written: a vehicle event raises NameError at `time.time()` before anything is stored; any other event leaves the record as it was |
| Obstacles.StandaloneQueryAsWritten | obstacle_sensor.py:16-31 | as written: every query answers 0.0, the caught NameError included |
| Obstacles.StandaloneAsWrittenNeverReports | obstacle_sensor.py:16-55 | as written, a vehicle event at a non-zero distance is lost and even a stored record reads 0.0, where the intended sensor reports that distance at once |
| Obstacles.Record | obstacle_sensor.py:53-55 | the stored record carries the event's distance and type id, stamped with the callback time |
| Obstacles.CurrentDistance | obstacle_sensor.py:16-31 | 0 when nothing is stored; the stored distance while its age is below the limit; 0 once the age reaches it |
| Obstacles.FreshAfterCallback | obstacle_sensor.py:16-24 | a query at the moment of an accepted event returns that event's distance for any positive limit |
| Obstacles.StaleAtLimit | obstacle_sensor.py:22-25 | an age exactly equal to the limit already counts as stale |
| Obstacles.StaleStaysStale | obstacle_sensor.py:22-25 | once stale, later queries stay 0 |
| Obstacles.CallerLimitIsSeconds | manual_control.py:740 | with the lamp's limit of 1000, a two-second-old reading is still reported; it takes 1000 s to expire |
| Obstacles.VehicleObstacleSensor.constructor | obstacle_sensor.py:14 | the record starts empty |
| Obstacles.VehicleObstacleSensor.OnObstacle | obstacle_sensor.py:53-55 | the record is replaced iff the other actor's type id contains `vehicle`, otherwise unchanged |
| Obstacles.VehicleObstacleSensor.GetCurrentObstacleDistance | obstacle_sensor.py:16-31 | 0 when empty; the stored distance exactly when the record is younger than the limit, 0 once it is not |
| Obstacles.NonStaticObstacleSensor.constructor | manual_control.py:1669-1678 | the record starts empty, the callback counter at 0 |
| Obstacles.NonStaticObstacleSensor.OnObstacle | manual_control.py:1746-1751 | every callback is counted; the record is replaced iff the type id does not contain `static` |
| Obstacles.NonStaticObstacleSensor.GetCurrentObstacleDistance | manual_control.py:1680-1706 | 0 when empty; the stored distance exactly when the record is younger than the limit, 0 once it is not |
| Shared.Globals.constructor | manual_control.py:155-156 | `g_distance` and `g_least_distance` both start at 0 |
| Hud.Scan | manual_control.py:1010-1016 | the result is the starting value or one of the distances, and then within 200 m; non-negative inputs give a non-negative result |
| Hud.Tick | manual_control.py:942-1016 | with the info panel hidden nothing changes; otherwise the AEBS speed is the player's speed with auto-activation at 15 km/h, the AEBS distance is `g_distance`, and `g_least_distance` follows `UpdateLeastDistance` |
| Hud.UpdateLeastDistance | manual_control.py:1003-1016 | with other vehicles present `g_least_distance` becomes the scan of the sorted list; otherwise it keeps its value |
| Hud.ScanKeeps | manual_control.py:1010-1016 | a positive running minimum no larger than the remaining distances survives the scan |
| Hud.NearestWithinRange | manual_control.py:1008-1016 | over ascending distances the result is the smallest positive distance within 200 m, and 0 exactly when there is none |
| Collision.Recent | manual_control.py:1495-1497 | at most 4000 entries, the last ones of the input in order |
| Collision.Push | manual_control.py:1495-1497 | the event is the newest entry; a history within the cap stays within it; below the cap it is a plain append |
| Collision.PushRecent | manual_control.py:1495-1497 | appending with eviction keeps the history equal to the last 4000 events ever received |
| Collision.FrameTotal | manual_control.py:1480-1484 | 0 for a frame with no entry; non-negative for non-negative intensities |
| Collision.FrameTotalSplit | manual_control.py:1480-1484 | per-frame totals add up over concatenated histories |
| Collision.PushTotals | manual_control.py:1480-1497 | one event adds its intensity to its own frame's total and leaves every other frame's total unchanged, except the frame of an evicted entry |
| Collision.CollisionSensor.constructor | manual_control.py:1469 | the history starts empty |
| Collision.CollisionSensor.OnCollision | manual_control.py:1487-1497 | the event is appended and the oldest entry is dropped past 4000; the history stays the last 4000 events received |
| Collision.CollisionSensor.GetCollisionHistory | manual_control.py:1480-1484 | the keys are exactly the frames in the history, each mapped to its summed intensity |
| Keyboard.NextThrottle | manual_control.py:620-624 | 0 when released; otherwise at most 0.6, and up by exactly 0.01 while that stays within 0.6 |
| Keyboard.NextBrake | manual_control.py:626-630 | 0 when released; otherwise at most 1, and up by exactly 0.2 while that stays within 1 |
| Keyboard.NextSteer | manual_control.py:632-647 | always within ±0.7; 0 with no steering key or on a change of direction; left never increases and right never decreases the cache |
| Keyboard.HeldThrottleRamp | manual_control.py:620-622 | holding up for n frames gives throttle min(0.01·n, 0.6) |
| Keyboard.HeldBrakeRamp | manual_control.py:626-628 | holding down for n frames gives brake min(0.2·n, 1), full braking from the fifth frame |
| Keyboard.ShiftGear | manual_control.py:551-562 | K_q selects 1 in reverse and -1 otherwise; K_m takes the simulator's gear; with manual shifting, comma goes down but not below -1 and period goes up; without it they do nothing |
| Keyboard.ShiftKeepsFloor | manual_control.py:551-562 | no gear key takes a gear at or above -1 below -1 |
| Keyboard.ReverseKeyFlips | manual_control.py:552-602 | K_q followed by the frame's reverse update flips the reverse flag |
| Keyboard.KeyboardControl.constructor | manual_control.py:425 | all controls at rest, steering cache 0 |
| Keyboard.KeyboardControl.ParseVehicleKeys | manual_control.py:619-649 | throttle, brake and steering cache follow `NextThrottle`, `NextBrake` and `NextSteer`; the hand brake follows the space key |
| Keyboard.KeyboardControl.OnGearKey | manual_control.py:551-562 | the gear follows `ShiftGear`; K_m flips manual shifting |
| Keyboard.KeyboardControl.UpdateReverse | manual_control.py:602 | reverse is set exactly when the gear is negative |
| Cycling.Wrap | manual_control.py:1585 | the reduced index lies in [0, n) and leaves in-range indices unchanged |
| Cycling.Cycle | manual_control.py:347-349 | forward moves to the next index and wraps from the last to 0; backward moves to the previous and wraps from 0 to the last |
| Cycling.CycleInverse | manual_control.py:347-356 | a step back undoes a step forward and the other way round |
| Cycling.ForwardIsOffset | manual_control.py:347-356 | k forward steps land on (i + k) mod n |
| Cycling.FullRound | manual_control.py:347-356 | n forward steps return to the start |
| Camera.NeedsRespawn | manual_control.py:1586-1587 | always without a current sensor; otherwise iff forced or the display name differs |
| Camera.NumberKeySensor | manual_control.py:509-513 | keys 1–9 pick sensors 0–8; with Ctrl, 1–3 pick 9–11 and 4–9 wrap to 0–5 |
| Camera.NamesDistinct | manual_control.py:1538-1557 | no two sensors share a display name |
| Camera.CameraManager.constructor | manual_control.py:1537-1578 | placement 1, no sensor yet |
| Camera.CameraManager.SetSensor | manual_control.py:1584-1603 | the index is the request mod 12; a sensor is spawned exactly when `NeedsRespawn` says so |
| Camera.CameraManager.ToggleCamera | manual_control.py:1580-1582 | the placement cycles over the 5 placements and the current sensor is respawned |
| Camera.CameraManager.NextSensor | manual_control.py:1605-1606 | the sensor index cycles forward and a new sensor is always spawned |
| ActorNames.SlicePrefix | manual_control.py:177 | Python's `s[:k]`: length min(k, len) for k ≥ 0, len + k clipped at 0 for negative k, always a prefix |
| ActorNames.Truncate | manual_control.py:175-177 | a name within the limit is unchanged; a longer one becomes exactly `truncate` characters: its first `truncate - 1` characters and an ellipsis |
| ActorNames.TruncateBound | manual_control.py:175-177 | for a positive limit the result never exceeds it, and it equals the name exactly when the name fits |
| ActorNames.TruncateIdempotent | manual_control.py:175-177 | truncating a second time with the same limit changes nothing |

## Left out

- Threading: the `test` thread, the `g_interrupt` polling and the join on shutdown are left out. One turn of the inner loop is `World.Aebs.TestPass`.
- Simulator calls: spawning, `listen`, `apply_control`, `enable_constant_velocity`, `restart` and recording are left out. Their effect on the AEBS is returned as `AebsLoop.Command` values or as a spawn count.
- pygame: drawing, fonts, sound and the event pump are left out. Only the colour and the number of lamp circles are modelled, and beeps appear as commands. The blocking `system_failure_warning` and `collision_warning` loops are left out.
- Floating point: the `sqrt` speed, distance and impulse computations are left out. The model takes their results as inputs. All arithmetic is exact real arithmetic, so float rounding is not modelled.
- Image processing: `preprocess_rgb`, `preprocess_semantic`, the projection matrix and the image-point maths are left out.
- Keyboard.KeyboardControl.ParseVehicleKeys: it does not model `round(steer, 1)` on the control's steer value. Only the unrounded steering cache is modelled.
- `DistanceSensor.step` is left out. It is an uncalled reward step driven by the wall clock and an undefined `episode_start`.
- `test_aebs` and `disable_on_failure` are left out; they only print. Their `try` bodies cannot fail.
- `main`, `game_loop`, `find_weather_presets`, `get_actor_blueprints`, light switching, autopilot and recorder keys are left out. The HUD text layout, `FadingText`, `HelpText` and walker controls are left out too.
- reference.py is not part of this model; it has no logic.
- ActorNames.Truncate: it does not model how the display name is derived from the type id (the replace, title-casing, split and join). The derived name is an input.
- Hud.UpdateLeastDistance: it takes the other vehicles' distances already sorted. Python's `sorted` is not modelled, so `Hud.NearestWithinRange` assumes an ascending list.
- Obstacles.CurrentDistance: the `except` branch that returns 0.0 is not modelled separately. In manual_control.py, which imports `time`, no step of the query can fail. The standalone copy, whose `time.time()` does fail, is under "## Findings".
- Obstacles.VehicleObstacleSensor.constructor: it models the intended constructor. As written, `carla.Transform()` at obstacle_sensor.py:48 raises NameError, so no sensor is ever attached.
- Obstacles.VehicleObstacleSensor.OnObstacle: it models the intended callback. As written, a vehicle event raises NameError at `time.time()` before the record is stored (`Obstacles.StandaloneCallbackAsWritten`).
- Obstacles.VehicleObstacleSensor.GetCurrentObstacleDistance: it models the intended query. As written, a stored record makes `time.time()` raise, and the `except` answers 0.0 (`Obstacles.StandaloneQueryAsWritten`).
- Hud.Tick: the lazy set-up of the warning lamp, the notifications and the info text are left out. The player's speed and the sorted distances are inputs, as is `len(vehicles) > 1`, which becomes "`others` is not empty".
- World.World.ToggleConstantVelocity: the simulator calls are not returned: neither the two `enable_constant_velocity` calls nor the player's `disable_constant_velocity`, which runs before the raise. The enabling branch calls `player_2`, which the model assumes exists. What the uncaught AttributeError does to the client afterwards is not modelled.
- World.Aebs.TestPass: when `self.distance` is still `None`, the comparison raises and ends the thread. The model reports this as `raised` and does not model what happens to the thread afterwards.
- Camera.CameraManager.ToggleCamera: it requires a current sensor. With `index` still `None`, `set_sensor` would raise on `None % len`.
- Camera.CameraManager.NextSensor: it requires a current sensor. With `index` still `None`, `index + 1` would raise.
- Warnleuchte.Warnleuchte.AktualisiereZustand: the player's reverse flag and speed are inputs, as is the obstacle query's clock. The dead `else` branches (lines 777-779 and 781-783) are proved unreachable.

## Findings

| source | as written | input that shows it | evidently intended | confidence | as-written member | corrected member |
|---|---|---|---|---|---|---|
| obstacle_sensor.py:16-55 | the file imports neither `time` nor `carla`: the constructor's `carla.Transform()` (line 48) raises NameError, the callback's `time.time()` (line 55) raises before the record is stored, and the query's `time.time()` (line 21) raises inside the `try`, so every query answers 0.0 | a `vehicle.*` obstacle event at a distance of 5 m, queried at once with a limit of 1000 | the imports manual_control.py has (`import time` and `import carla`, lines 63 and 82), so the query answers 5 | high, not executed | Obstacles.StandaloneAsWrittenNeverReports | Obstacles.FreshAfterCallback |
