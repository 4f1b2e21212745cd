/**
  The nearest-vehicle update of `HUD.tick`: the other vehicles' distances,
  sorted ascending, are scanned until one is beyond 200 m, and
  `g_least_distance` keeps a running minimum in which 0 means "none yet".
 */
module Hud {
  import Shared
  import Envelope
  import World
  import opened Wrappers

  /** The HUD lists vehicles up to this distance (m). */
  const ListRange: real := 200.0

  predicate Ascending(ds: seq<real>) {
    forall i, j :: 0 <= i < j < |ds| ==> ds[i] <= ds[j]
  }

  predicate NonNegative(ds: seq<real>) {
    forall i :: 0 <= i < |ds| ==> ds[i] >= 0.0
  }

  /** The loop from a running value `least`, stopping at the first distance over 200 m. */
  function Scan(ds: seq<real>, least: real): (r: real)
    ensures r == least || (r in ds && r <= ListRange)
    ensures least >= 0.0 && NonNegative(ds) ==> r >= 0.0
    decreases |ds|
  {
    if ds == [] || ds[0] > ListRange then least
    else Scan(ds[1..], if ds[0] < least || least == 0.0 then ds[0] else least)
  }

  /**
    `g_least_distance` after the loop; it is only reset and recomputed when
    there is at least one vehicle besides the player.
   */
  method UpdateLeastDistance(g: Shared.Globals, others: seq<real>)
    modifies g`leastDistance
    ensures g.leastDistance == if |others| > 0 then Scan(others, 0.0) else old(g.leastDistance)
  {
    if |others| > 0 {
      g.leastDistance := 0.0;
      var i := 0;
      while i < |others|
        invariant 0 <= i <= |others|
        invariant Scan(others[i..], g.leastDistance) == Scan(others, 0.0)
      {
        var d := others[i];
        assert others[i..][0] == d && others[i..][1..] == others[i + 1..];
        if d > ListRange {
          break;
        }
        if d < g.leastDistance || g.leastDistance == 0.0 {
          g.leastDistance := d;
        }
        i := i + 1;
      }
    }
  }

  /**
    `HUD.tick`, for the state the model keeps: nothing changes while the
    info panel is hidden; otherwise the AEBS speed and distance are refreshed
    (the only place the speed-based auto-activation runs) and the
    nearest-vehicle update follows. `kmh` is the player's speed and `others`
    the other vehicles' distances in the order the tick sorts them.
   */
  method Tick(showInfo: bool, aebs: World.Aebs, kmh: real, g: Shared.Globals, others: seq<real>)
    modifies aebs`speed, aebs`active, aebs`distance, g`leastDistance
    ensures !showInfo ==> aebs.speed == old(aebs.speed) && aebs.active == old(aebs.active)
    ensures !showInfo ==> aebs.distance == old(aebs.distance) && g.leastDistance == old(g.leastDistance)
    ensures showInfo ==> aebs.speed == kmh && aebs.active == (old(aebs.active) || kmh >= Envelope.ActiveSpeed)
    ensures showInfo ==> aebs.distance == Some(g.distance)
    ensures showInfo ==> g.leastDistance == if |others| > 0 then Scan(others, 0.0) else old(g.leastDistance)
  {
    if !showInfo {
      return;
    }
    aebs.GetCurrentSpeed(kmh);
    aebs.GetCurrentDistance(g);
    UpdateLeastDistance(g, others);
  }

  /** A positive running value no larger than every remaining distance survives the scan. */
  lemma {:induction false} ScanKeeps(ds: seq<real>, least: real)
    requires Ascending(ds) && least > 0.0
    requires forall i :: 0 <= i < |ds| ==> least <= ds[i]
    ensures Scan(ds, least) == least
    decreases |ds|
  {
    if ds != [] && ds[0] <= ListRange {
      ScanKeeps(ds[1..], least);
    }
  }

  /**
    Over an ascending list of distances, the result is the smallest positive
    distance within 200 m, and 0 exactly when there is none (a vehicle at
    distance 0 is skipped over).
   */
  lemma {:induction false} NearestWithinRange(ds: seq<real>)
    requires Ascending(ds) && NonNegative(ds)
    ensures var r := Scan(ds, 0.0);
      (r == 0.0 <==> forall i :: 0 <= i < |ds| ==> !(0.0 < ds[i] <= ListRange)) &&
      (r != 0.0 ==> r in ds && 0.0 < r <= ListRange && forall i :: 0 <= i < |ds| && ds[i] > 0.0 ==> r <= ds[i])
    decreases |ds|
  {
    if ds != [] && ds[0] <= ListRange {
      if ds[0] == 0.0 {
        NearestWithinRange(ds[1..]);
        assert Scan(ds, 0.0) == Scan(ds[1..], 0.0);
        forall i | 1 <= i < |ds| ensures ds[i] == ds[1..][i - 1] { }
      } else {
        ScanKeeps(ds[1..], ds[0]);
        assert Scan(ds, 0.0) == ds[0];
      }
    } else if ds != [] {
      assert forall i :: 0 <= i < |ds| ==> ds[i] >= ds[0];
    }
  }
}
