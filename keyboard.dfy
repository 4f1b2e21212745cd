/**
  `KeyboardControl` for a vehicle: the per-frame key parsing of
  `_parse_vehicle_keys` (throttle and brake ramps, the steering cache) and
  the gear keys of `parse_events`.
 */
module Keyboard {

  /** The most throttle the up key can ramp to. */
  const MaxThrottle: real := 0.6
  /** The throttle gained per frame with the up key held. */
  const ThrottleStep: real := 0.01
  /** The brake gained per frame with the down key held. */
  const BrakeStep: real := 0.2
  /** The steering cache is clamped to [-MaxSteer, MaxSteer]. */
  const MaxSteer: real := 0.7
  /** Steering gained per millisecond of frame time. */
  const SteerRate: real := 0.0005

  /** The keys held during a frame; `up` is K_UP or K_w, and so on. */
  datatype Keys = Keys(up: bool, down: bool, left: bool, right: bool, space: bool)

  /** The gear keys handled by `parse_events`. */
  datatype GearKey = ToggleReverse | ToggleManual | ShiftDown | ShiftUp

  function Min(a: real, b: real): real { if a <= b then a else b }
  function Max(a: real, b: real): real { if a >= b then a else b }

  /** The throttle after a frame: ramped up while `up` is held, 0 otherwise. */
  function NextThrottle(throttle: real, up: bool): (t: real)
    ensures !up ==> t == 0.0
    ensures up ==> t <= MaxThrottle
    ensures up && throttle + ThrottleStep <= MaxThrottle ==> t == throttle + ThrottleStep
    ensures up && 0.0 <= throttle ==> 0.0 <= t
  {
    if up then Min(throttle + ThrottleStep, MaxThrottle) else 0.0
  }

  /** The brake after a frame: ramped up while `down` is held, 0 otherwise. */
  function NextBrake(brake: real, down: bool): (b: real)
    ensures !down ==> b == 0.0
    ensures down ==> b <= 1.0
    ensures down && brake + BrakeStep <= 1.0 ==> b == brake + BrakeStep
    ensures down && 0.0 <= brake ==> 0.0 <= b
  {
    if down then Min(brake + BrakeStep, 1.0) else 0.0
  }

  /**
    The steering cache after a frame of `ms` milliseconds: left pulls it
    down, right pushes it up, a key against the current direction snaps it
    to 0, no steering key resets it to 0; the result is clamped.
   */
  function NextSteer(cache: real, left: bool, right: bool, ms: real): (s: real)
    ensures -MaxSteer <= s <= MaxSteer
    ensures !left && !right ==> s == 0.0
    ensures left && cache > 0.0 ==> s == 0.0
    ensures !left && right && cache < 0.0 ==> s == 0.0
    ensures ms >= 0.0 && left ==> s <= 0.0
    ensures ms >= 0.0 && !left && right ==> s >= 0.0
    ensures ms >= 0.0 && left && -MaxSteer <= cache <= 0.0 ==> s <= cache
    ensures ms >= 0.0 && !left && right && 0.0 <= cache <= MaxSteer ==> s >= cache
  {
    var increment := SteerRate * ms;
    var raw :=
      if left then (if cache > 0.0 then 0.0 else cache - increment)
      else if right then (if cache < 0.0 then 0.0 else cache + increment)
      else 0.0;
    Min(MaxSteer, Max(-MaxSteer, raw))
  }

  /** The throttle after holding `up` for n frames from a standstill. */
  function HeldThrottle(n: nat): real
  {
    if n == 0 then 0.0 else NextThrottle(HeldThrottle(n - 1), true)
  }

  /** Holding the up key ramps the throttle by 0.01 per frame up to 0.6. */
  lemma {:induction false} HeldThrottleRamp(n: nat)
    ensures HeldThrottle(n) == Min((n as real) * ThrottleStep, MaxThrottle)
  {
    if n > 0 {
      HeldThrottleRamp(n - 1);
      assert ((n - 1) as real) * ThrottleStep + ThrottleStep == (n as real) * ThrottleStep;
    }
  }

  /** The brake after holding `down` for n frames from released. */
  function HeldBrake(n: nat): real
  {
    if n == 0 then 0.0 else NextBrake(HeldBrake(n - 1), true)
  }

  /** Holding the down key ramps the brake by 0.2 per frame; full braking after 5 frames. */
  lemma {:induction false} HeldBrakeRamp(n: nat)
    ensures HeldBrake(n) == Min((n as real) * BrakeStep, 1.0)
    ensures n >= 5 ==> HeldBrake(n) == 1.0
  {
    if n > 0 {
      HeldBrakeRamp(n - 1);
      assert ((n - 1) as real) * BrakeStep + BrakeStep == (n as real) * BrakeStep;
    }
  }

  /** The gear after a gear key; `playerGear` is the gear the simulator reports. */
  function ShiftGear(gear: int, reverse: bool, manual: bool, key: GearKey, playerGear: int): (g: int)
    ensures key == ToggleReverse ==> g == (if reverse then 1 else -1)
    ensures key == ToggleManual ==> g == playerGear
    ensures key == ShiftDown && manual ==> g >= -1 && (gear > -1 ==> g == gear - 1) && (gear <= -1 ==> g == -1)
    ensures key == ShiftUp && manual ==> g == gear + 1
    ensures (key == ShiftDown || key == ShiftUp) && !manual ==> g == gear
  {
    match key
    case ToggleReverse => if reverse then 1 else -1
    case ToggleManual => playerGear
    case ShiftDown => if manual then (if gear - 1 >= -1 then gear - 1 else -1) else gear
    case ShiftUp => if manual then gear + 1 else gear
  }

  /** Shifting never takes a gear at or above -1 below -1. */
  lemma ShiftKeepsFloor(gear: int, reverse: bool, manual: bool, key: GearKey, playerGear: int)
    requires gear >= -1 && playerGear >= -1
    ensures ShiftGear(gear, reverse, manual, key, playerGear) >= -1
  {
  }

  /** K_q followed by the frame's `reverse = gear < 0` flips the reverse flag. */
  lemma ReverseKeyFlips(gear: int, reverse: bool, manual: bool, playerGear: int)
    ensures (ShiftGear(gear, reverse, manual, ToggleReverse, playerGear) < 0) == !reverse
  {
  }

  /** The vehicle control fields that `KeyboardControl` drives. */
  class KeyboardControl {
    var throttle: real
    var brake: real
    var steerCache: real
    var handBrake: bool
    var gear: int
    var reverse: bool
    var manualGearShift: bool

    constructor ()
      ensures throttle == 0.0 && brake == 0.0 && steerCache == 0.0
      ensures !handBrake && gear == 0 && !reverse && !manualGearShift
    {
      throttle, brake, steerCache := 0.0, 0.0, 0.0;
      handBrake, gear, reverse, manualGearShift := false, 0, false, false;
    }

    /** `_parse_vehicle_keys`: one frame of held keys lasting `ms` milliseconds. */
    method ParseVehicleKeys(keys: Keys, ms: real)
      modifies this`throttle, this`brake, this`steerCache, this`handBrake
      ensures throttle == NextThrottle(old(throttle), keys.up)
      ensures brake == NextBrake(old(brake), keys.down)
      ensures steerCache == NextSteer(old(steerCache), keys.left, keys.right, ms)
      ensures handBrake == keys.space
    {
      if keys.up {
        throttle := Min(throttle + ThrottleStep, MaxThrottle);
      } else {
        throttle := 0.0;
      }
      if keys.down {
        brake := Min(brake + BrakeStep, 1.0);
      } else {
        brake := 0.0;
      }
      var increment := SteerRate * ms;
      if keys.left {
        if steerCache > 0.0 {
          steerCache := 0.0;
        } else {
          steerCache := steerCache - increment;
        }
      } else if keys.right {
        if steerCache < 0.0 {
          steerCache := 0.0;
        } else {
          steerCache := steerCache + increment;
        }
      } else {
        steerCache := 0.0;
      }
      steerCache := Min(MaxSteer, Max(-MaxSteer, steerCache));
      handBrake := keys.space;
    }

    /** The gear keys of `parse_events` (K_q, K_m, K_COMMA, K_PERIOD). */
    method OnGearKey(key: GearKey, playerGear: int)
      modifies this`gear, this`manualGearShift
      ensures gear == ShiftGear(old(gear), reverse, old(manualGearShift), key, playerGear)
      ensures manualGearShift == (if key == ToggleManual then !old(manualGearShift) else old(manualGearShift))
    {
      if key == ToggleReverse {
        gear := if reverse then 1 else -1;
      } else if key == ToggleManual {
        manualGearShift := !manualGearShift;
        gear := playerGear;
      } else if manualGearShift && key == ShiftDown {
        gear := if gear - 1 >= -1 then gear - 1 else -1;
      } else if manualGearShift && key == ShiftUp {
        gear := gear + 1;
      }
    }

    /** After the keys of a frame are parsed, a negative gear means reverse. */
    method UpdateReverse()
      modifies this`reverse
      ensures reverse == (gear < 0)
    {
      reverse := gear < 0;
    }
  }
}
