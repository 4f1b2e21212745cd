/**
  `CollisionSensor`: every collision event appends `(frame, intensity)` to a
  history that keeps at most the 4000 most recent entries; the HUD reads the
  history back as a map from frame to the summed intensity of that frame.
 */
module Collision {

  /** The cap on the history length. */
  const HistoryLimit: nat := 4000

  /** One history entry: the frame of the collision and its impulse magnitude. */
  datatype Hit = Hit(frame: int, intensity: real)

  /** The last `HistoryLimit` entries of `s` (all of them when there are fewer). */
  function Recent(s: seq<Hit>): (r: seq<Hit>)
    ensures |r| <= HistoryLimit
    ensures |s| <= HistoryLimit ==> r == s
    ensures |s| > HistoryLimit ==> |r| == HistoryLimit
    ensures forall k :: 0 <= k < |r| ==> r[k] == s[|s| - |r| + k]
  {
    if |s| <= HistoryLimit then s else s[|s| - HistoryLimit..]
  }

  /** The history after one event: append, then drop the oldest entry once over the cap. */
  function Push(h: seq<Hit>, x: Hit): (r: seq<Hit>)
    ensures |h| <= HistoryLimit ==> |r| <= HistoryLimit
    ensures |r| >= 1 && r[|r| - 1] == x
    ensures |h| < HistoryLimit ==> r == h + [x]
  {
    var appended := h + [x];
    if |appended| > HistoryLimit then appended[1..] else appended
  }

  /** Pushing keeps "the most recent entries of everything received". */
  lemma {:induction false} PushRecent(s: seq<Hit>, x: Hit)
    ensures Push(Recent(s), x) == Recent(s + [x])
  {
    var r := Recent(s);
    var s' := s + [x];
    if |s| < HistoryLimit {
      assert Recent(s') == s';
    } else {
      assert |r| == HistoryLimit;
      var p := Push(r, x);
      var q := Recent(s');
      assert |p| == HistoryLimit && |q| == HistoryLimit;
      forall k | 0 <= k < HistoryLimit
        ensures p[k] == q[k]
      {
        if k < HistoryLimit - 1 {
          assert p[k] == r[k + 1] == s[|s| - HistoryLimit + k + 1];
          assert q[k] == s'[|s'| - HistoryLimit + k];
        }
      }
    }
  }

  /** The summed intensity of the entries of `h` for frame f. */
  function FrameTotal(h: seq<Hit>, f: int): (t: real)
    ensures (forall k :: 0 <= k < |h| ==> h[k].frame != f) ==> t == 0.0
    ensures (forall k :: 0 <= k < |h| ==> h[k].intensity >= 0.0) ==> t >= 0.0
  {
    if h == [] then 0.0
    else FrameTotal(h[..|h| - 1], f) + (if h[|h| - 1].frame == f then h[|h| - 1].intensity else 0.0)
  }

  /** The frame total of a concatenation is the sum of the frame totals. */
  lemma {:induction false} FrameTotalSplit(a: seq<Hit>, b: seq<Hit>, f: int)
    ensures FrameTotal(a + b, f) == FrameTotal(a, f) + FrameTotal(b, f)
  {
    if b == [] {
      assert a + b == a;
    } else {
      var b' := b[..|b| - 1];
      assert (a + b)[..|a + b| - 1] == a + b';
      assert (a + b)[|a + b| - 1] == b[|b| - 1];
      FrameTotalSplit(a, b', f);
    }
  }

  /**
    One event changes only the totals of its own frame and of the entry it
    evicts: the new frame gains the event's intensity, every other frame that
    is not the evicted one keeps its total.
   */
  lemma PushTotals(h: seq<Hit>, x: Hit, f: int)
    requires |h| <= HistoryLimit
    ensures |h| < HistoryLimit ==>
      FrameTotal(Push(h, x), f) == FrameTotal(h, f) + (if x.frame == f then x.intensity else 0.0)
    ensures |h| == HistoryLimit && h[0].frame != f ==>
      FrameTotal(Push(h, x), f) == FrameTotal(h, f) + (if x.frame == f then x.intensity else 0.0)
  {
    if |h| < HistoryLimit {
      assert (h + [x])[..|h|] == h;
    } else {
      FrameTotalSplit([h[0]], h[1..], f);
      assert [h[0]] + h[1..] == h;
      FrameTotalSplit(h[1..], [x], f);
      assert [x][..0] == [];
      assert Push(h, x) == h[1..] + [x];
      assert [h[0]][..0] == [];
    }
  }

  class CollisionSensor {
    /** `history`: the retained entries, oldest first. */
    var history: seq<Hit>
    /** Every entry ever received, oldest first. */
    ghost var received: seq<Hit>

    ghost predicate Valid()
      reads this
    {
      history == Recent(received)
    }

    constructor ()
      ensures Valid() && history == [] && received == []
    {
      history := [];
      received := [];
    }

    /**
      `_on_collision`: append the event, pop the oldest entry when the list
      is longer than 4000. The intensity is the impulse magnitude, computed
      by the caller.
     */
    method OnCollision(frame: int, intensity: real)
      requires Valid()
      modifies this
      ensures Valid()
      ensures received == old(received) + [Hit(frame, intensity)]
      ensures history == Push(old(history), Hit(frame, intensity))
    {
      PushRecent(received, Hit(frame, intensity));
      history := history + [Hit(frame, intensity)];
      if |history| > HistoryLimit {
        history := history[1..];
      }
      received := received + [Hit(frame, intensity)];
    }

    /**
      `get_collision_history`: the frames present in the history, each mapped
      to the sum of its intensities.
     */
    method GetCollisionHistory() returns (totals: map<int, real>)
      ensures totals.Keys == set k | 0 <= k < |history| :: history[k].frame
      ensures forall f :: f in totals ==> totals[f] == FrameTotal(history, f)
    {
      totals := map[];
      var i := 0;
      while i < |history|
        invariant 0 <= i <= |history|
        invariant totals.Keys == set k | 0 <= k < i :: history[k].frame
        invariant forall f :: f in totals ==> totals[f] == FrameTotal(history[..i], f)
      {
        var hit := history[i];
        assert history[..i + 1][..i] == history[..i];
        var previous := if hit.frame in totals then totals[hit.frame] else 0.0;
        totals := totals[hit.frame := previous + hit.intensity];
        assert (set k | 0 <= k < i + 1 :: history[k].frame) == (set k | 0 <= k < i :: history[k].frame) + {hit.frame};
        i := i + 1;
      }
      assert history[..i] == history;
    }
  }
}
