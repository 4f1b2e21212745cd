/**
  The modular index cycling of manual_control.py: `next_weather` and
  `next_map_layer` step an index forward or backward and reduce it modulo the
  list length; `set_sensor` reduces any requested index modulo the number of
  sensors. With a positive length, Dafny's `%` and Python's `%` agree: both
  give a result in [0, n).
 */
module Cycling {

  /** `index % n` for a list of length n. */
  function Wrap(i: int, n: int): (r: int)
    requires n > 0
    ensures 0 <= r < n
    ensures 0 <= i < n ==> r == i
  {
    i % n
  }

  /** One step back when `reverse` is set, one step forward otherwise, then reduced modulo n. */
  function Cycle(i: int, reverse: bool, n: int): (r: int)
    requires n > 0
    ensures 0 <= r < n
    ensures !reverse && 0 <= i < n - 1 ==> r == i + 1
    ensures reverse && 0 < i < n ==> r == i - 1
    ensures !reverse && i == n - 1 ==> r == 0
    ensures reverse && i == 0 ==> r == n - 1
  {
    Wrap(i + (if reverse then -1 else 1), n)
  }

  /** Stepping back undoes stepping forward, and the other way round. */
  lemma CycleInverse(i: int, n: int)
    requires 0 <= i < n
    ensures Cycle(Cycle(i, false, n), true, n) == i
    ensures Cycle(Cycle(i, true, n), false, n) == i
  {
  }

  /** k forward steps from index i. */
  function Forward(i: int, k: nat, n: int): (r: int)
    requires n > 0
    ensures 0 <= r < n || (k == 0 && r == i)
  {
    if k == 0 then i else Cycle(Forward(i, k - 1, n), false, n)
  }

  /** k forward steps land on (i + k) mod n. */
  lemma {:induction false} ForwardIsOffset(i: int, k: nat, n: int)
    requires n > 0 && 0 <= i < n
    ensures Forward(i, k, n) == (i + k) % n
  {
    if k > 0 {
      ForwardIsOffset(i, k - 1, n);
      var p := Forward(i, k - 1, n);
      assert p == (i + k - 1) % n;
      ModStep(i + k - 1, n);
    }
  }

  lemma ModStep(a: int, n: int)
    requires n > 0 && a >= 0
    ensures (a % n + 1) % n == (a + 1) % n
  {
    var q, r := a / n, a % n;
    assert a == q * n + r;
    if r + 1 < n {
      ModUnique(a + 1, n, q, r + 1);
      ModUnique(r + 1, n, 0, r + 1);
    } else {
      ModUnique(a + 1, n, q + 1, 0);
      ModUnique(r + 1, n, 1, 0);
    }
  }

  /** The remainder is the only r in [0, n) with a == q * n + r. */
  lemma ModUnique(a: int, n: int, q: int, r: int)
    requires n > 0 && 0 <= r < n && a == q * n + r
    ensures a % n == r
  {
    var q' := a / n;
    assert a == q' * n + a % n;
    assert q * n - q' * n == (q - q') * n;
    if q > q' {
      MulAtLeast(q - q', n);
      assert false;
    }
    if q < q' {
      MulAtLeast(q' - q, n);
      assert false;
    }
  }

  lemma MulAtLeast(d: int, n: int)
    requires d >= 1 && n > 0
    ensures d * n >= n
  {
    assert d * n == (d - 1) * n + n;
    assert (d - 1) * n >= 0;
  }

  /** A full round of n forward steps returns to the start. */
  lemma FullRound(i: int, n: int)
    requires n > 0 && 0 <= i < n
    ensures Forward(i, n, n) == i
  {
    ForwardIsOffset(i, n, n);
    ModUnique(i + n, n, 1, i);
  }
}
