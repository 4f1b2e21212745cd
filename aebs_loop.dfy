/**
  One pass of the body of `AEBS.test`, the background loop that escalates
  from a first beep to a full brake. The body is five `if` statements run
  in sequence; each is a function on the pass so far, in source order. The
  stage `action` is 0 (idle), 1 (first alert), 2 (second alert) or 3
  (holding the brake). Beeps and brake commands are recorded as outputs.
 */
module AebsLoop {

  /** What the loop sends to the sound mixer and to the simulated vehicle. */
  datatype Command = Beep | DisableConstantVelocity | ApplyBrake(brake: real)

  /** `self.action` and the world's `constant_velocity_enabled`. */
  datatype LoopState = LoopState(action: int, cruise: bool)

  /** What one pass reads: `self.distance`, `self.speed` and the driver-override flag. */
  datatype Reading = Reading(distance: real, speed: real, override: bool)

  /** The state after (part of) a pass and the commands issued so far. */
  datatype Pass = Pass(state: LoopState, commands: seq<Command>)

  /** Below 4 m and idle: beep, go to stage 1. */
  function FirstAlert(p: Pass, r: Reading): (q: Pass)
    ensures q.state.cruise == p.state.cruise
    ensures p.state.action == 0 && r.distance < 4.0 && !r.override ==>
      q.state.action == 1 && q.commands == p.commands + [Beep]
    ensures !(p.state.action == 0 && r.distance < 4.0 && !r.override) ==> q == p
  {
    if r.distance < 4.0 && p.state.action == 0 && !r.override
    then Pass(p.state.(action := p.state.action + 1), p.commands + [Beep])
    else p
  }

  /** Below 3 m in stage 1: double beep, go to stage 2. */
  function SecondAlert(p: Pass, r: Reading): (q: Pass)
    ensures q.state.cruise == p.state.cruise
    ensures p.state.action == 1 && r.distance < 3.0 && !r.override ==>
      q.state.action == 2 && q.commands == p.commands + [Beep, Beep]
    ensures !(p.state.action == 1 && r.distance < 3.0 && !r.override) ==> q == p
  {
    if r.distance < 3.0 && p.state.action == 1 && !r.override
    then Pass(p.state.(action := p.state.action + 1), p.commands + [Beep, Beep])
    else p
  }

  /** Below 2 m in stage 2: leave constant-velocity mode, brake fully, go to stage 3. */
  function FullBrake(p: Pass, r: Reading): (q: Pass)
    ensures q.state.cruise ==> p.state.cruise
    ensures p.state.action == 2 && r.distance < 2.0 && !r.override ==>
      q.state == LoopState(3, false) && q.commands == p.commands + [DisableConstantVelocity, ApplyBrake(1.0)]
    ensures !(p.state.action == 2 && r.distance < 2.0 && !r.override) ==> q == p
  {
    if r.distance < 2.0 && p.state.action == 2 && !r.override
    then Pass(LoopState(p.state.action + 1, false), p.commands + [DisableConstantVelocity, ApplyBrake(1.0)])
    else p
  }

  /** Holding and standing still: release the brake, back to idle. */
  function Release(p: Pass, r: Reading): (q: Pass)
    ensures q.state.cruise == p.state.cruise
    ensures p.state.action == 3 && r.speed == 0.0 && !r.override ==>
      q.state.action == 0 && q.commands == p.commands + [ApplyBrake(0.0)]
    ensures !(p.state.action == 3 && r.speed == 0.0 && !r.override) ==> q == p
  {
    if p.state.action == 3 && r.speed == 0.0 && !r.override
    then Pass(p.state.(action := 0), p.commands + [ApplyBrake(0.0)])
    else p
  }

  /** The driver acts: release the brake, back to idle. */
  function Override(p: Pass, r: Reading): (q: Pass)
    ensures q.state.cruise == p.state.cruise
    ensures r.override ==> q.state.action == 0 && q.commands == p.commands + [ApplyBrake(0.0)]
    ensures !r.override ==> q == p
  {
    if r.override
    then Pass(p.state.(action := 0), p.commands + [ApplyBrake(0.0)])
    else p
  }

  /** The loop body, run when constant-velocity mode is on. */
  function Body(s: LoopState, r: Reading): (p: Pass)
    ensures 0 <= s.action <= 3 ==> 0 <= p.state.action <= 3
    ensures p.state.cruise ==> s.cruise
    ensures r.override ==> p.state.action == 0 && ApplyBrake(0.0) in p.commands
    ensures s.action == 3 && !r.override && r.speed != 0.0 ==> p == Pass(s, [])
  {
    Override(Release(FullBrake(SecondAlert(FirstAlert(Pass(s, []), r), r), r), r), r)
  }

  /** One turn of the inner `while`: the body when cruising, nothing otherwise. */
  function Step(s: LoopState, r: Reading): (p: Pass)
    ensures !s.cruise ==> p == Pass(s, [])
    ensures 0 <= s.action <= 3 ==> 0 <= p.state.action <= 3
    ensures p.state.cruise ==> s.cruise
  {
    if s.cruise then Body(s, r) else Pass(s, [])
  }

  /** The stage a distance calls for on its own: the number of thresholds (4, 3, 2 m) it is below. */
  function Level(d: real): (l: int)
    ensures 0 <= l <= 3
  {
    if d < 2.0 then 3 else if d < 3.0 then 2 else if d < 4.0 then 1 else 0
  }

  function Max(a: int, b: int): int {
    if a < b then b else a
  }

  /**
    The sequential checks climb from the current stage as far as the
    distance calls for (so 0 can become 3 in one pass, and distance 0 counts
    as "very close"); standing still in stage 3 then releases, and an
    override always resets to idle. Constant-velocity mode is left exactly
    when the 2-to-3 step fires.
   */
  lemma BodyCharacterised(s: LoopState, r: Reading)
    requires 0 <= s.action <= 3
    ensures var m := Max(s.action, Level(r.distance));
      Body(s, r).state.action == (if r.override then 0 else if m == 3 && r.speed == 0.0 then 0 else m)
    ensures Body(s, r).state.cruise == (s.cruise && (r.override || s.action == 3 || r.distance >= 2.0))
  {
  }

  /** The brake commands of a pass: full brake exactly on entering stage 3, release on standstill or override. */
  lemma BodyBrakes(s: LoopState, r: Reading)
    requires 0 <= s.action <= 3
    ensures ApplyBrake(1.0) in Body(s, r).commands <==> (!r.override && s.action < 3 && r.distance < 2.0)
    ensures ApplyBrake(0.0) in Body(s, r).commands <==>
      (r.override || (r.speed == 0.0 && Max(s.action, Level(r.distance)) == 3))
  {
  }

  /** Override short-circuit: whatever the stage, the pass ends idle with the brake released. */
  lemma OverrideResets(s: LoopState, r: Reading)
    requires r.override
    ensures Body(s, r) == Pass(s.(action := 0), [ApplyBrake(0.0)])
  {
  }

  /** From idle, a distance under 2 m escalates to stage 3 in a single pass. */
  lemma CascadeInOnePass(r: Reading)
    requires r.distance < 2.0 && !r.override && r.speed != 0.0
    ensures Body(LoopState(0, true), r) ==
      Pass(LoopState(3, false), [Beep, Beep, Beep, DisableConstantVelocity, ApplyBrake(1.0)])
  {
  }

  /** The states after each turn of the inner loop, stopping once constant-velocity mode is off. */
  function Run(s: LoopState, rs: seq<Reading>): (states: seq<LoopState>)
    ensures |states| <= |rs|
    ensures s.cruise && rs != [] ==> states != [] && states[0] == Step(s, rs[0]).state
    ensures forall i :: 0 <= i < |states| - 1 ==> states[i].cruise
    ensures |states| < |rs| ==> (states == [] && !s.cruise) || (states != [] && !states[|states| - 1].cruise)
    decreases |rs|
  {
    if rs == [] || !s.cruise then []
    else var n := Step(s, rs[0]).state; [n] + Run(n, rs[1..])
  }

  /** Without the driver and without standing still, the stage never goes down and stays in 0..3. */
  lemma {:induction false} RunMonotone(s: LoopState, rs: seq<Reading>)
    requires 0 <= s.action <= 3
    requires forall i :: 0 <= i < |rs| ==> !rs[i].override && rs[i].speed != 0.0
    ensures forall i :: 0 <= i < |Run(s, rs)| ==> s.action <= Run(s, rs)[i].action <= 3
    ensures forall i :: 0 < i < |Run(s, rs)| ==> Run(s, rs)[i - 1].action <= Run(s, rs)[i].action
    decreases |rs|
  {
    if rs != [] && s.cruise {
      var n := Step(s, rs[0]).state;
      BodyCharacterised(s, rs[0]);
      RunMonotone(n, rs[1..]);
      var tail := Run(n, rs[1..]);
      assert Run(s, rs) == [n] + tail;
      assert s.action <= n.action <= 3;
      forall i | 0 <= i < |Run(s, rs)|
        ensures s.action <= Run(s, rs)[i].action <= 3
        ensures i > 0 ==> Run(s, rs)[i - 1].action <= Run(s, rs)[i].action
      {
        if i == 0 {
          assert Run(s, rs)[0] == n;
        } else {
          assert Run(s, rs)[i] == tail[i - 1];
          assert n.action <= tail[i - 1].action;
          if i > 1 {
            assert Run(s, rs)[i - 1] == tail[i - 2];
          } else {
            assert Run(s, rs)[0] == n;
          }
        }
      }
    }
  }

  /** Closing in at 5, 3.5, 2.5 and 1.5 m at 20 km/h walks through every stage in order. */
  lemma ClosingInScenario()
    ensures var rs := [Reading(5.0, 20.0, false), Reading(3.5, 20.0, false),
                       Reading(2.5, 20.0, false), Reading(1.5, 20.0, false)];
      Run(LoopState(0, true), rs) ==
        [LoopState(0, true), LoopState(1, true), LoopState(2, true), LoopState(3, false)]
  {
  }
}
