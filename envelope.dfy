/**
  The driving-school stopping envelope the warning lamp classifies against.
  Speeds are in km/h, distances in metres. Both the braking and the reaction
  distance are halved, as the source does for its slow test track.
 */
module Envelope {

  /** Below this speed (km/h) the AEBS is not meant to react at all. */
  const ActiveSpeed: real := 15.0

  /** Braking distance: (v/10)^2, halved. */
  function BrakingDistance(v: real): real
  {
    (v / 10.0) * (v / 10.0) / 2.0
  }

  /** Reaction distance: (v/10)*3, halved. */
  function ReactionDistance(v: real): (d: real)
    ensures v > 0.0 ==> d > 0.0
    ensures v < 0.0 ==> d < 0.0
    ensures v == 0.0 ==> d == 0.0
  {
    (v / 10.0) * 3.0 / 2.0
  }

  /** Stopping distance: braking plus reaction distance. */
  function StopDistance(v: real): (d: real)
    ensures v > 0.0 ==> d > 0.0
    ensures v == 0.0 ==> d == 0.0
  {
    BrakingDistance(v) + ReactionDistance(v)
  }

  /** The early warning distance: 50% more than the stopping distance. */
  function WarnLow(v: real): (w: real)
    ensures v > 0.0 ==> w > StopDistance(v)
  {
    StopDistance(v) * 1.5
  }

  /** The urgent warning distance: 20% more than the stopping distance. */
  function WarnHigh(v: real): (w: real)
    ensures v > 0.0 ==> w > StopDistance(v)
    ensures v > 0.0 ==> w < WarnLow(v)
  {
    StopDistance(v) * 1.2
  }

  /** The urgent threshold is always the shorter distance. */
  lemma ThresholdsOrdered(v: real)
    requires v > 0.0
    ensures 0.0 < StopDistance(v) < WarnHigh(v) < WarnLow(v)
  {
  }

  /** At standstill the whole envelope is zero. */
  lemma EnvelopeAtZero(v: real)
    requires v == 0.0
    ensures BrakingDistance(v) == 0.0 && ReactionDistance(v) == 0.0
    ensures StopDistance(v) == 0.0 && WarnLow(v) == 0.0 && WarnHigh(v) == 0.0
  {
  }

  /** The braking distance is never negative, whatever the sign of the speed. */
  lemma BrakingNonNegative(v: real)
    ensures BrakingDistance(v) >= 0.0
  {
  }

  /** At 20 km/h: braking 2 m, reaction 3 m, stop 5 m, thresholds 7.5 m and 6 m. */
  lemma EnvelopeAt20()
    ensures BrakingDistance(20.0) == 2.0 && ReactionDistance(20.0) == 3.0
    ensures StopDistance(20.0) == 5.0 && WarnLow(20.0) == 7.5 && WarnHigh(20.0) == 6.0
  {
  }

  /** A faster car never needs a shorter stopping distance. */
  lemma StopDistanceMonotone(v1: real, v2: real)
    requires 0.0 <= v1 <= v2
    ensures StopDistance(v1) <= StopDistance(v2)
    ensures WarnHigh(v1) <= WarnHigh(v2) && WarnLow(v1) <= WarnLow(v2)
  {
    var a, b := v1 / 10.0, v2 / 10.0;
    assert 0.0 <= a <= b;
    ScaleMonotone(a, a, b);
    ScaleMonotone(b, a, b);
    assert a * a <= b * b;
    assert BrakingDistance(v1) == a * a / 2.0 && BrakingDistance(v2) == b * b / 2.0;
    assert ReactionDistance(v1) == a * 3.0 / 2.0 && ReactionDistance(v2) == b * 3.0 / 2.0;
  }

  lemma ScaleMonotone(k: real, x: real, y: real)
    requires 0.0 <= k && x <= y
    ensures k * x <= k * y
  {
    assert k * y - k * x == k * (y - x);
  }
}
