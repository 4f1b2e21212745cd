/**
  The module-level variables of manual_control.py through which its parts
  talk to each other: the vision estimate `g_distance`, written by the
  distance sensor and read by the AEBS, and `g_least_distance`, written by
  the HUD and read by the warning lamp.
 */
module Shared {

  class Globals {
    /** `g_distance`: the latest vision-based distance, 0 when no vehicle is seen. */
    var distance: real
    /** `g_least_distance`: the nearest other vehicle the HUD listed, 0 when none. */
    var leastDistance: real

    constructor ()
      ensures distance == 0.0 && leastDistance == 0.0
    {
      distance := 0.0;
      leastDistance := 0.0;
    }
  }
}
