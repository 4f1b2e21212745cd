/**
  The AEBS warning lamp (`Warnleuchte`) of manual_control.py. The source uses
  the class object itself as its only instance, so its state is the class
  attributes: the current lamp state, whether the start-up self-test is
  over, and the self-test ticker. Each rendered frame either advances the
  self-test or classifies the situation and paints the lamp.
 */
module Warnleuchte {
  import opened Wrappers
  import opened Envelope
  import World
  import Shared

  /** The seven lamp states, in the source's order. */
  datatype Zustand = NotInit | Error | Init | Aus | WarnungLow | WarnungHigh | Unfall

  datatype Rgb = Rgb(r: int, g: int, b: int)

  const White := Rgb(255, 255, 255)
  const Green := Rgb(31, 94, 10)
  const Red := Rgb(255, 0, 0)
  const Orange := Rgb(255, 165, 0)
  const Black := Rgb(0, 0, 0)

  /** `__findColorByZusand`: the colour each state is painted in. */
  function Colour(z: Zustand): (c: Rgb)
    ensures c == Red <==> z in {WarnungLow, WarnungHigh, Unfall}
    ensures c == Black <==> z == Aus
    ensures c == Orange <==> z == Error
    ensures c == White <==> z == NotInit
    ensures c == Green <==> z == Init
  {
    match z
    case NotInit => White
    case Error => Orange
    case Init => Green
    case Aus => Black
    case WarnungLow => Red
    case WarnungHigh => Red
    case Unfall => Red
  }

  /** The number of stacked circles `__paint` draws for a state. */
  function LampCount(z: Zustand): (n: nat)
    ensures 1 <= n <= 3
    ensures n == 3 <==> z == Unfall
    ensures n == 2 <==> z == WarnungHigh
  {
    match z
    case WarnungHigh => 2
    case Unfall => 3
    case _ => 1
  }

  /** Everything `__aktualisiereZustand` consults, as read in one frame. */
  datatype Snapshot = Snapshot(
    worldKnown: bool,         // `__world is not None`
    aebsKnown: bool,          // `__world.aebs is not None`
    active: bool,             // `aebs.active`
    reverse: bool,            // the player's control is in reverse
    speed: real,              // the refreshed AEBS speed, km/h
    aebsDistance: real,       // the refreshed AEBS distance, read and then overwritten
    obstacleDistance: real,   // the obstacle sensor's answer for a 1000 limit
    leastDistance: real)      // `g_least_distance`

  /** The obstacle reading when positive, otherwise the HUD's nearest vehicle. */
  function SelectedDistance(s: Snapshot): (d: real)
    ensures d == s.obstacleDistance || d == s.leastDistance
    ensures s.obstacleDistance > 0.0 ==> d == s.obstacleDistance
    ensures d > 0.0 <==> s.obstacleDistance > 0.0 || s.leastDistance > 0.0
  {
    if s.obstacleDistance > 0.0 then s.obstacleDistance else s.leastDistance
  }

  /** The distance test at a speed of at least 15 km/h, including the final `else`. */
  function ClassifyDistance(v: real, d: real): (z: Zustand)
    ensures z in {Init, WarnungLow, WarnungHigh}
    ensures d <= 0.0 ==> z == Init
    ensures z == WarnungHigh <==> 0.0 < d <= WarnHigh(v)
    ensures z == WarnungLow ==> WarnHigh(v) < d <= WarnLow(v)
  {
    if d <= 0.0 then Init
    else if d <= WarnHigh(v) then WarnungHigh
    else if d <= WarnLow(v) then WarnungLow
    else if d >= WarnLow(v) then Init
    else Error
  }

  /** `__aktualisiereZustand`: the lamp state for one frame. */
  function Classify(s: Snapshot): (z: Zustand)
    ensures z != Unfall && z != NotInit
    ensures z == Error <==> !s.worldKnown || !s.aebsKnown
    ensures s.worldKnown && s.aebsKnown ==> (z == Aus <==> !s.active || s.reverse)
    ensures z == WarnungHigh <==>
      s.worldKnown && s.aebsKnown && s.active && !s.reverse && s.speed >= ActiveSpeed &&
      0.0 < SelectedDistance(s) <= WarnHigh(s.speed)
    ensures z == WarnungLow <==>
      s.worldKnown && s.aebsKnown && s.active && !s.reverse && s.speed >= ActiveSpeed &&
      WarnHigh(s.speed) < SelectedDistance(s) <= WarnLow(s.speed)
  {
    if !s.worldKnown then Error
    else if !s.aebsKnown then Error
    else if !s.active then Aus
    else if s.reverse then Aus
    else if s.speed <= 0.0 then Init
    else if s.speed < ActiveSpeed then Init
    else if s.speed >= ActiveSpeed then ClassifyDistance(s.speed, SelectedDistance(s))
    else Error
  }

  /** Above 15 km/h the distance test yields one of three states only; its final `else` is dead. */
  lemma ClassifyDistanceRange(v: real, d: real)
    requires v >= ActiveSpeed
    ensures ClassifyDistance(v, d) in {Init, WarnungLow, WarnungHigh}
    ensures ClassifyDistance(v, d) == Init <==> d <= 0.0 || d > WarnLow(v)
  {
    ThresholdsOrdered(v);
  }

  /** Below 15 km/h an active, forward-moving AEBS shows the ready lamp, whatever the distance. */
  lemma SlowIsReady(s: Snapshot)
    requires s.worldKnown && s.aebsKnown && s.active && !s.reverse && s.speed < ActiveSpeed
    ensures Classify(s) == Init
  {
  }

  /** The AEBS's own distance never decides the lamp state. */
  lemma AebsDistanceIgnored(s: Snapshot, other: real)
    ensures Classify(s) == Classify(s.(aebsDistance := other))
  {
  }

  /** At 20 km/h with the obstacle 1.8 m ahead the lamp shows the urgent warning. */
  lemma UrgentAt20()
    ensures Classify(Snapshot(true, true, true, false, 20.0, 0.0, 1.8, 0.0)) == WarnungHigh
  {
    EnvelopeAt20();
  }

  /** The ticker value at which the self-test has painted everything and ends. */
  const CheckEnd: int := 70

  /** What `__displayCheck` paints once the ticker has been incremented to t; None ends the check. */
  function SelfTestFrame(t: int): (z: Option<Zustand>)
    ensures z != Some(Unfall)
    ensures z.None? <==> !(0 <= t < 70 || 80 <= t < 90)
    ensures z == Some(NotInit) <==> 0 <= t < 20 || 80 <= t < 90
  {
    var ticker := 10;
    if t >= 0 && t < ticker * 2 then Some(NotInit)
    else if t >= ticker * 2 && t < ticker * 3 then Some(Error)
    else if t >= ticker * 3 && t < ticker * 4 then Some(Init)
    else if t >= ticker * 4 && t < ticker * 5 then Some(Aus)
    else if t >= ticker * 5 && t < ticker * 6 then Some(WarnungLow)
    else if t >= ticker * 6 && t < ticker * 7 then Some(WarnungHigh)
    else if t >= ticker * 8 && t < ticker * 9 then Some(NotInit)
    else None
  }

  /** The self-test part of the lamp's state: `__displayCheckedTicker` and `__displayChecked`. */
  datatype CheckState = CheckState(ticker: int, checked: bool)

  const AfterReset := CheckState(1, false)

  /** One call of `__displayCheck`: the next state and what it painted. */
  function CheckFrame(c: CheckState): (r: (CheckState, Option<Zustand>))
    ensures c.checked ==> r == (c, None)
    ensures !c.checked ==> r.0.ticker == c.ticker + 1 && r.1 == SelfTestFrame(c.ticker + 1)
    ensures !c.checked ==> (r.0.checked <==> r.1.None?)
  {
    if c.checked then (c, None)
    else
      var t := c.ticker + 1;
      (CheckState(t, SelfTestFrame(t).None?), SelfTestFrame(t))
  }

  /** What n successive calls paint. */
  function Frames(c: CheckState, n: nat): (shown: seq<Option<Zustand>>)
    ensures |shown| == n
    decreases n
  {
    if n == 0 then [] else [CheckFrame(c).1] + Frames(CheckFrame(c).0, n - 1)
  }

  /** The state after n successive calls. */
  function After(c: CheckState, n: nat): CheckState
    decreases n
  {
    if n == 0 then c else After(CheckFrame(c).0, n - 1)
  }

  /**
    What the k-th call after a reset paints (k >= 1): 18 frames
    NOT_INIT, then ten frames each of ERROR, INIT, AUS, WARNUNG_LOW and
    WARNUNG_HIGH; from the 69th call on nothing is painted.
   */
  function Schedule(k: int): Option<Zustand> {
    if k <= 18 then Some(NotInit)
    else if k <= 28 then Some(Error)
    else if k <= 38 then Some(Init)
    else if k <= 48 then Some(Aus)
    else if k <= 58 then Some(WarnungLow)
    else if k <= 68 then Some(WarnungHigh)
    else None
  }

  /** The states a lamp can be in: the self-test runs from ticker 1 up to 69 and ends at 70. */
  predicate CheckInvariant(c: CheckState) {
    if c.checked then c.ticker == CheckEnd else 1 <= c.ticker < CheckEnd
  }

  /** One call keeps the invariant; the ticker never reaches the 80..89 branch. */
  lemma CheckFramePreserves(c: CheckState)
    requires CheckInvariant(c)
    ensures CheckInvariant(CheckFrame(c).0)
    ensures CheckFrame(c).1 != Some(Unfall)
    ensures !c.checked ==> c.ticker + 1 < 80
  {
  }

  /** From an unchecked ticker t, the i-th following call paints Schedule(t + i). */
  lemma {:induction false} FramesFollowSchedule(c: CheckState, n: nat)
    requires CheckInvariant(c)
    ensures forall i :: 0 <= i < n ==>
      Frames(c, n)[i] == if c.checked then None else Schedule(c.ticker + i)
    ensures After(c, n).checked == (c.checked || c.ticker + n >= CheckEnd)
    decreases n
  {
    if n > 0 {
      var (c', shown) := CheckFrame(c);
      CheckFramePreserves(c);
      FramesFollowSchedule(c', n - 1);
      assert Frames(c, n) == [shown] + Frames(c', n - 1);
      forall i | 0 <= i < n
        ensures Frames(c, n)[i] == if c.checked then None else Schedule(c.ticker + i)
      {
        if i > 0 {
          assert Frames(c, n)[i] == Frames(c', n - 1)[i - 1];
        }
      }
    }
  }

  /**
    After a reset: the `Schedule` order, the 69th call ends the check
    without painting, and neither UNFALL nor a second NOT_INIT phase is ever
    shown.
   */
  lemma SelfTestSequence(n: nat)
    ensures forall i :: 0 <= i < n ==> Frames(AfterReset, n)[i] == Schedule(i + 1)
    ensures Some(Unfall) !in Frames(AfterReset, n)
    ensures forall i :: 18 <= i < n ==> Frames(AfterReset, n)[i] != Some(NotInit)
    ensures n >= 69 ==> After(AfterReset, n).checked && Frames(AfterReset, n)[68] == None
    ensures n < 69 ==> !After(AfterReset, n).checked
  {
    FramesFollowSchedule(AfterReset, n);
  }

  class Warnleuchte {
    var world: World.World?
    /** `__zustand`: the state painted last. */
    var zustand: Zustand
    /** `__displayChecked`: the start-up self-test is over. */
    var displayChecked: bool
    /** `__displayCheckedStatus`: set by `reset`, never read. */
    var displayCheckedStatus: Zustand
    /** `__displayCheckedTicker`. */
    var ticker: int

    ghost function Check(): CheckState
      reads this
    {
      CheckState(ticker, displayChecked)
    }

    ghost predicate Valid()
      reads this
    {
      CheckInvariant(Check())
    }

    /** The class-attribute defaults. */
    constructor ()
      ensures Valid() && Check() == AfterReset
      ensures world == null && zustand == NotInit && displayCheckedStatus == NotInit
    {
      world := null;
      zustand := NotInit;
      displayChecked := false;
      displayCheckedStatus := NotInit;
      ticker := 1;
    }

    /** `setWorld`. */
    method SetWorld(w: World.World?)
      modifies this`world
      ensures world == w
    {
      world := w;
    }

    /** `reset`: restarts the self-test; called whenever the AEBS is toggled. */
    method Reset()
      modifies this`displayChecked, this`displayCheckedStatus, this`ticker
      ensures Valid() && Check() == AfterReset && displayCheckedStatus == NotInit
    {
      displayChecked := false;
      displayCheckedStatus := NotInit;
      ticker := 1;
    }

    /** `__displayCheck`: one frame of the self-test; returns what was painted. */
    method DisplayCheck() returns (shown: Option<Zustand>)
      modifies this`displayChecked, this`ticker, this`zustand
      ensures (Check(), shown) == CheckFrame(old(Check()))
      ensures zustand == if shown.Some? then shown.value else old(zustand)
    {
      shown := None;
      if !displayChecked {
        ticker := ticker + 1;
        var t := 10;
        if ticker >= 0 && ticker < t * 2 {
          zustand := NotInit;
          return Some(zustand);
        }
        if ticker >= t * 2 && ticker < t * 3 {
          zustand := Error;
          return Some(zustand);
        }
        if ticker >= t * 3 && ticker < t * 4 {
          zustand := Init;
          return Some(zustand);
        }
        if ticker >= t * 4 && ticker < t * 5 {
          zustand := Aus;
          return Some(zustand);
        }
        if ticker >= t * 5 && ticker < t * 6 {
          zustand := WarnungLow;
          return Some(zustand);
        }
        if ticker >= t * 6 && ticker < t * 7 {
          zustand := WarnungHigh;
          return Some(zustand);
        }
        if ticker >= t * 8 && ticker < t * 9 {
          zustand := NotInit;
          return Some(zustand);
        }
        displayChecked := true;
      }
    }

    /** The snapshot the classifier sees; `aebsDistance` is what the refresh stores. */
    ghost function Situation(kmh: real, reverse: bool, now: real, g: Shared.Globals): Snapshot
      reads this, world, g
      reads if world != null then {world.obstacleSensor} else {}
      reads if world != null && world.aebs != null then {world.aebs} else {}
    {
      var worldKnown := world != null;
      var aebsKnown := worldKnown && world.aebs != null;
      Snapshot(worldKnown, aebsKnown, aebsKnown && world.aebs.active, reverse, kmh, g.distance,
        if worldKnown then world.obstacleSensor.GetCurrentObstacleDistance(1000.0, now) else 0.0,
        g.leastDistance)
    }

    /**
      `__aktualisiereZustand`: with an active AEBS it first refreshes the
      AEBS's distance and speed, then sets the lamp state to the
      classification of what it read.
     */
    method AktualisiereZustand(kmh: real, reverse: bool, now: real, g: Shared.Globals)
      modifies this`zustand
      modifies if world != null && world.aebs != null then {world.aebs} else {}
      ensures zustand == Classify(old(Situation(kmh, reverse, now, g)))
      ensures world != null && world.aebs != null && old(world.aebs.active) ==>
        world.aebs.speed == kmh && world.aebs.distance == Some(g.distance) && world.aebs.active
      ensures world != null && world.aebs != null && !old(world.aebs.active) ==>
        unchanged(world.aebs)
    {
      if world == null {
        zustand := Error;
      } else if world.aebs == null {
        zustand := Error;
      } else {
        var aebs := world.aebs;
        if aebs.active {
          zustand := Init;
          aebs.GetCurrentDistance(g);
          aebs.GetCurrentSpeed(kmh);
          var currentSpeed := aebs.speed;
          var currentDistance := aebs.distance.value;
          var obstacleDistance := world.obstacleSensor.GetCurrentObstacleDistance(1000.0, now);
          if obstacleDistance > 0.0 {
            currentDistance := obstacleDistance;
          } else {
            currentDistance := g.leastDistance;
          }
          if reverse {
            zustand := Aus;
          } else if currentSpeed <= 0.0 {
            zustand := Init;
          } else if currentSpeed < ActiveSpeed {
            zustand := Init;
          } else if currentSpeed >= ActiveSpeed {
            var stop := StopDistance(currentSpeed);
            var warnLow := stop * 1.5;
            var warnHigh := stop * 1.2;
            if currentDistance <= 0.0 {
              zustand := Init;
            } else if currentDistance <= warnHigh {
              zustand := WarnungHigh;
            } else if currentDistance <= warnLow {
              zustand := WarnungLow;
            } else if currentDistance >= warnLow {
              zustand := Init;
            } else {
              // the source sets ERROR here; no distance is neither <= nor >= warnLow
              assert false;
            }
          } else {
            // the source sets ERROR here; the speed tests above cover every speed
            assert false;
          }
        } else {
          zustand := Aus;
        }
      }
    }

    /**
      `render`: nothing without a display; during the self-test one
      `__displayCheck` frame; afterwards classify and paint. Returns the
      state painted, if any.
     */
    method Render(display: bool, kmh: real, reverse: bool, now: real, g: Shared.Globals)
      returns (shown: Option<Zustand>)
      requires Valid()
      modifies this`zustand, this`displayChecked, this`ticker
      modifies if world != null && world.aebs != null then {world.aebs} else {}
      ensures Valid()
      ensures !display ==> shown == None && unchanged(this)
      ensures display && old(displayChecked) ==>
        shown == Some(zustand) && zustand == Classify(old(Situation(kmh, reverse, now, g))) && displayChecked
      ensures display && !old(displayChecked) ==> (Check(), shown) == CheckFrame(old(Check()))
      ensures display && !old(displayChecked) ==> zustand == if shown.Some? then shown.value else old(zustand)
      ensures world != null && world.aebs != null && (!display || !old(displayChecked) || !old(world.aebs.active)) ==>
        unchanged(world.aebs)
      ensures world != null && world.aebs != null && display && old(displayChecked) && old(world.aebs.active) ==>
        world.aebs.speed == kmh && world.aebs.distance == Some(g.distance) && world.aebs.active
    {
      shown := None;
      if display {
        if displayChecked {
          AktualisiereZustand(kmh, reverse, now, g);
          shown := Some(zustand);
        } else {
          CheckFramePreserves(Check());
          shown := DisplayCheck();
        }
      }
    }
  }

  /**
    The K_u key of `parse_events`: toggle the AEBS, then restart the lamp's
    self-test when the HUD has a lamp.
   */
  method OnAebsKey(aebs: World.Aebs, lamp: Warnleuchte?) returns (beep: bool)
    modifies aebs`active
    modifies if lamp != null then {lamp} else {}
    ensures aebs.active == !old(aebs.active) && beep == old(aebs.active)
    ensures lamp != null ==> lamp.Valid() && lamp.Check() == AfterReset
    ensures lamp != null ==> lamp.world == old(lamp.world) && lamp.zustand == old(lamp.zustand)
  {
    beep := aebs.ToggleAebs();
    if lamp != null {
      lamp.Reset();
    }
  }
}
