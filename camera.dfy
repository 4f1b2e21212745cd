/**
  `CameraManager`: the choice of camera placement and of sensor. The
  simulator side (spawning, listening, destroying) is reduced to a count of
  spawned sensors; what is modelled is the index arithmetic and the rule that
  decides when a new sensor must be spawned.
 */
module Camera {
  import opened Wrappers
  import Cycling

  /** The number of camera placements in `_camera_transforms`. */
  const TransformCount: int := 5

  /** The display names of the twelve entries of `sensors`, in order. */
  const SensorNames: seq<string> := [
    "Camera RGB",
    "Camera Depth (Raw)",
    "Camera Depth (Gray Scale)",
    "Camera Depth (Logarithmic Gray Scale)",
    "Camera Semantic Segmentation (Raw)",
    "Camera Semantic Segmentation (CityScapes Palette)",
    "Camera Instance Segmentation (CityScapes Palette)",
    "Camera Instance Segmentation (Raw)",
    "Lidar (Ray-Cast)",
    "Dynamic Vision Sensor",
    "Camera RGB Distorted",
    "Optical Flow"
  ]

  /**
    Whether `set_sensor` spawns a new sensor: always when none is active,
    otherwise when forced or when the display name changes.
   */
  function NeedsRespawn(current: Option<int>, index: int, force: bool): (b: bool)
    requires 0 <= index < |SensorNames|
    requires current.Some? ==> 0 <= current.value < |SensorNames|
    ensures current.None? ==> b
    ensures current.Some? && !force ==> (b <==> SensorNames[index] != SensorNames[current.value])
    ensures force ==> b
  {
    if current.None? then true else force || SensorNames[index] != SensorNames[current.value]
  }

  /**
    The index a number key asks `set_sensor` for: keys 1 to 9 select
    0 to 8, with Ctrl 9 to 17, and `set_sensor` wraps those past the last
    sensor, so Ctrl+4 to Ctrl+9 land on sensors 0 to 5.
   */
  function NumberKeySensor(digit: int, ctrl: bool): (r: int)
    requires 1 <= digit <= 9
    ensures 0 <= r < |SensorNames|
    ensures !ctrl ==> r == digit - 1
    ensures ctrl && digit <= 3 ==> r == digit + 8
    ensures ctrl && digit > 3 ==> r == digit - 4
  {
    Cycling.Wrap(digit - 1 + (if ctrl then 9 else 0), |SensorNames|)
  }

  class CameraManager {
    /** `transform_index`: the current camera placement. */
    var transformIndex: int
    /** `index`: the current sensor, None before the first `set_sensor`. */
    var index: Option<int>
    /** How many sensors have been spawned. */
    var spawned: nat

    ghost predicate Valid()
      reads this
    {
      && 0 <= transformIndex < TransformCount
      && (index.Some? ==> 0 <= index.value < |SensorNames|)
    }

    constructor ()
      ensures Valid() && transformIndex == 1 && index == None && spawned == 0
    {
      transformIndex := 1;
      index := None;
      spawned := 0;
    }

    /**
      `set_sensor`: the requested index is reduced modulo the sensor count;
      a sensor is spawned when `NeedsRespawn` says so.
     */
    method SetSensor(requested: int, force: bool) returns (respawned: bool)
      requires Valid()
      modifies this`index, this`spawned
      ensures Valid()
      ensures index == Some(Cycling.Wrap(requested, |SensorNames|))
      ensures respawned == NeedsRespawn(old(index), index.value, force)
      ensures spawned == old(spawned) + (if respawned then 1 else 0)
    {
      var i := requested % |SensorNames|;
      respawned := index.None? || force || SensorNames[i] != SensorNames[index.value];
      if respawned {
        spawned := spawned + 1;
      }
      index := Some(i);
    }

    /**
      `toggle_camera`: the next placement, then the current sensor is
      respawned there. Passing an unset index would fail in `set_sensor`.
     */
    method ToggleCamera()
      requires Valid() && index.Some?
      modifies this`transformIndex, this`index, this`spawned
      ensures Valid()
      ensures transformIndex == Cycling.Cycle(old(transformIndex), false, TransformCount)
      ensures index == old(index) && spawned == old(spawned) + 1
    {
      transformIndex := (transformIndex + 1) % TransformCount;
      var _ := SetSensor(index.value, true);
    }

    /** `next_sensor`: the following sensor, wrapping after the last. */
    method NextSensor() returns (respawned: bool)
      requires Valid() && index.Some?
      modifies this`index, this`spawned
      ensures Valid()
      ensures index == Some(Cycling.Cycle(old(index.value), false, |SensorNames|))
      ensures respawned
    {
      respawned := SetSensor(index.value + 1, false);
      NamesDistinct(old(index.value), index.value);
    }
  }

  /** No two sensors share a display name, so changing the index always respawns. */
  lemma NamesDistinct(i: int, j: int)
    requires 0 <= i < |SensorNames| && 0 <= j < |SensorNames| && i != j
    ensures SensorNames[i] != SensorNames[j]
  {
    assert |SensorNames[i]| != |SensorNames[j]| || SensorNames[i][7] != SensorNames[j][7];
  }
}
