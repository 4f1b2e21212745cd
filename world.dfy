/**
  The parts of `World` and `AEBS` in manual_control.py that hold decision
  state: the AEBS on/off switch and stage, the refresh of its speed and
  distance, one pass of its background loop, the constant-velocity switch
  that loop runs under, and the weather and map-layer indices.

  The simulator behind them (spawning, physics, applying controls) is not
  modelled: what the code sends to it is returned as a `Command` list.
 */
module World {
  import opened Wrappers
  import opened AebsLoop
  import Envelope
  import Obstacles
  import Shared
  import Cycling

  /** The number of entries in `World.map_layer_names`. */
  const MapLayerCount: nat := 11

  class World {
    var aebs: Aebs?
    /** The obstacle sensor `restart` attaches to the player. */
    var obstacleSensor: Obstacles.NonStaticObstacleSensor
    /** `constant_velocity_enabled`: the mode the AEBS loop runs under. */
    var constantVelocityEnabled: bool
    /** The number of weather presets found in the simulator's enum. */
    const weatherCount: nat
    var weatherIndex: int
    var currentMapLayer: int

    ghost predicate Valid()
      reads this
    {
      0 <= weatherIndex < weatherCount && 0 <= currentMapLayer < MapLayerCount
    }

    /** `__init__` followed by the part of `restart` that creates the obstacle sensor and the AEBS. */
    constructor (weatherCount: nat)
      requires weatherCount > 0
      ensures Valid() && this.weatherCount == weatherCount
      ensures aebs != null && fresh(aebs) && aebs.world == this && fresh(obstacleSensor)
      ensures aebs.active && aebs.speed == 0.0 && aebs.action == 0 && aebs.distance == None
      ensures !constantVelocityEnabled && weatherIndex == 0 && currentMapLayer == 0
      ensures obstacleSensor.current == None
    {
      this.weatherCount := weatherCount;
      weatherIndex := 0;
      currentMapLayer := 0;
      constantVelocityEnabled := false;
      obstacleSensor := new Obstacles.NonStaticObstacleSensor();
      aebs := null;
      new;
      aebs := new Aebs(this);
    }

    /** `next_weather`: the index moves one step and wraps around. */
    method NextWeather(reverse: bool)
      requires Valid()
      modifies this`weatherIndex
      ensures Valid()
      ensures weatherIndex == Cycling.Cycle(old(weatherIndex), reverse, weatherCount)
    {
      weatherIndex := Cycling.Cycle(weatherIndex, reverse, weatherCount);
    }

    /** `next_map_layer`: the index moves one step and wraps around. */
    method NextMapLayer(reverse: bool)
      requires Valid()
      modifies this`currentMapLayer
      ensures Valid()
      ensures currentMapLayer == Cycling.Cycle(old(currentMapLayer), reverse, MapLayerCount)
    {
      currentMapLayer := Cycling.Cycle(currentMapLayer, reverse, MapLayerCount);
    }

    /**
      Ctrl+W, as written. Switching the mode on works. Switching it off
      calls the misspelt `disalbe_constant_velocity` on the second vehicle,
      which raises AttributeError before the flag is cleared; the exception
      leaves the key handler and ends the client. So the key can switch the
      mode on but never off: afterwards the mode is on in every case.
     */
    method ToggleConstantVelocity() returns (raised: bool)
      modifies this`constantVelocityEnabled
      ensures raised == old(constantVelocityEnabled)
      ensures constantVelocityEnabled
    {
      raised := false;
      if constantVelocityEnabled {
        raised := true;
        return;
      }
      constantVelocityEnabled := true;
    }
  }

  class Aebs {
    var active: bool
    /** km/h, as last refreshed from the player's velocity. */
    var speed: real
    /** `None` until the first refresh from `g_distance`. */
    var distance: Option<real>
    /** The stage of the background loop, 0..3. */
    var action: int
    const world: World

    constructor (world: World)
      ensures active && speed == 0.0 && distance == None && action == 0 && this.world == world
    {
      active := true;
      speed := 0.0;
      distance := None;
      action := 0;
      this.world := world;
    }

    /** `toggle_aebs`: flips `active`; the beep sounds only when switching off. */
    method ToggleAebs() returns (beep: bool)
      modifies this`active
      ensures active == !old(active)
      ensures beep == old(active)
    {
      beep := active;
      active := !active;
    }

    /** `activate_at_speed`: at 15 km/h or more an inactive AEBS switches itself on; it never switches off. */
    method ActivateAtSpeed()
      modifies this`active
      ensures active == (old(active) || speed >= Envelope.ActiveSpeed)
      ensures old(active) ==> active
    {
      if speed >= 15.0 {
        if !active {
          var _ := ToggleAebs();
        }
      }
    }

    /** `get_current_speed`: stores the speed computed from the velocity, then auto-activates. */
    method GetCurrentSpeed(kmh: real)
      modifies this`speed, this`active
      ensures speed == kmh
      ensures active == (old(active) || kmh >= Envelope.ActiveSpeed)
    {
      speed := kmh;
      ActivateAtSpeed();
    }

    /** `get_current_distance`: copies `g_distance`. */
    method GetCurrentDistance(g: Shared.Globals)
      modifies this`distance
      ensures distance == Some(g.distance)
    {
      distance := Some(g.distance);
    }

    /**
      One turn of the inner `while` of `test`: nothing unless constant-velocity
      mode is on; with no distance yet, the comparison `None < 4` raises and
      ends the loop; otherwise the five checks of the body run in order.
      Note that `active` is not consulted.
     */
    method TestPass(override: bool) returns (raised: bool, commands: seq<Command>)
      modifies this`action, world`constantVelocityEnabled
      ensures !old(world.constantVelocityEnabled) ==>
        !raised && commands == [] && action == old(action) && !world.constantVelocityEnabled
      ensures old(world.constantVelocityEnabled) && old(distance).None? ==>
        raised && commands == [] && action == old(action) && world.constantVelocityEnabled
      ensures old(world.constantVelocityEnabled) && old(distance).Some? ==>
        var p := Step(LoopState(old(action), true), Reading(old(distance).value, speed, override));
        !raised && action == p.state.action && world.constantVelocityEnabled == p.state.cruise && commands == p.commands
    {
      raised, commands := false, [];
      if !world.constantVelocityEnabled {
        return;
      }
      if distance.None? {
        raised := true;
        return;
      }
      var d := distance.value;
      if d < 4.0 && action == 0 && !override {
        commands := commands + [Beep];
        action := action + 1;
      }
      if d < 3.0 && action == 1 && !override {
        commands := commands + [Beep, Beep];
        action := action + 1;
      }
      if d < 2.0 && action == 2 && !override {
        commands := commands + [DisableConstantVelocity];
        world.constantVelocityEnabled := false;
        commands := commands + [ApplyBrake(1.0)];
        action := action + 1;
      }
      if action == 3 && speed == 0.0 && !override {
        commands := commands + [ApplyBrake(0.0)];
        action := 0;
      }
      if override {
        commands := commands + [ApplyBrake(0.0)];
        action := 0;
      }
    }
  }
}
