/**
 * Python's `%` on a positive divisor, the wrap-around of `next_track` and
 * `prev_track`, and the facts about it the sequencer's proofs use.
 */
module Modular {

  /**
   * Python's `i % n` for a positive `n` (floored, so never negative): `i`
   * shifted by whole turns of `n` into `0..n-1`. `WrapIsMod` shows it agrees
   * with Dafny's `%`; the sequencer uses this recursive form because its
   * proofs unfold one turn at a time, which the solver handles far more
   * cheaply than `%` with a symbolic divisor.
   */
  function Wrap(i: int, n: int): (r: int)
    requires n > 0
    ensures 0 <= r < n
    decreases if i < 0 then 1 else 0, if i < 0 then -i else i
  {
    if i < 0 then Wrap(i + n, n)
    else if i < n then i
    else Wrap(i - n, n)
  }

  /** A positive multiple of `n` is at least `n`. */
  lemma {:induction false} MulAtLeast(d: int, n: int)
    requires d >= 1 && n > 0
    ensures d * n >= n
    decreases d
  {
    if d > 1 {
      MulAtLeast(d - 1, n);
      assert d * n == (d - 1) * n + n;
    }
  }

  /** Two decompositions `q * n + r` with `0 <= r < n` of the same number agree. */
  lemma DivModUnique(q1: int, r1: int, q2: int, r2: int, n: int)
    requires n > 0 && 0 <= r1 < n && 0 <= r2 < n
    requires q1 * n + r1 == q2 * n + r2
    ensures q1 == q2 && r1 == r2
  {
    if q1 > q2 {
      MulAtLeast(q1 - q2, n);
    } else if q1 < q2 {
      MulAtLeast(q2 - q1, n);
    }
  }

  /** Euclidean remainders are unique: any decomposition `x == q * n + r` with `0 <= r < n` gives `x % n`. */
  lemma ModUnique(x: int, q: int, r: int, n: int)
    requires n > 0 && 0 <= r < n && x == q * n + r
    ensures x % n == r
  {
    DivModUnique(x / n, x % n, q, r, n);
  }

  /** Fewer than `n` consecutive integers have distinct residues modulo `n`. */
  lemma ModDistinct(x: int, y: int, n: int)
    requires n > 0 && x < y < x + n
    ensures x % n != y % n
  {
    if x % n == y % n {
      var qx, qy := x / n, y / n;
      assert y - x == (qy - qx) * n;
      if qy - qx >= 1 {
        MulAtLeast(qy - qx, n);
      } else {
        assert (qx - qy) * n >= 0 by {
          if qx - qy >= 1 { MulAtLeast(qx - qy, n); }
        }
      }
    }
  }

  /** Reducing modulo `n` before adding does not change the residue. */
  lemma ModShift(a: int, b: int, n: int)
    requires n > 0
    ensures (a % n + b) % n == (a + b) % n
  {
    var q, r := a / n, a % n;
    var q2, r2 := (r + b) / n, (r + b) % n;
    assert a == q * n + r;
    assert r + b == q2 * n + r2;
    assert a + b == (q + q2) * n + r2;
    ModUnique(a + b, q + q2, r2, n);
  }

  /** `Wrap` is Dafny's Euclidean `%`, which agrees with Python's for a positive divisor. */
  lemma {:induction false} WrapIsMod(i: int, n: int)
    requires n > 0
    ensures Wrap(i, n) == i % n
    decreases if i < 0 then 1 else 0, if i < 0 then -i else i
  {
    if i < 0 {
      WrapIsMod(i + n, n);
      ModUnique(i, (i + n) / n - 1, (i + n) % n, n);
    } else if i < n {
      ModUnique(i, 0, i, n);
    } else {
      WrapIsMod(i - n, n);
      ModUnique(i, (i - n) / n + 1, (i - n) % n, n);
    }
  }

  /** Wrapping before adding does not change the result. */
  lemma WrapShift(a: int, b: int, n: int)
    requires n > 0
    ensures Wrap(Wrap(a, n) + b, n) == Wrap(a + b, n)
  {
    WrapIsMod(a, n);
    WrapIsMod(Wrap(a, n) + b, n);
    WrapIsMod(a + b, n);
    ModShift(a, b, n);
  }

  /** Fewer than `n` consecutive integers wrap to distinct indices. */
  lemma WrapDistinct(x: int, y: int, n: int)
    requires n > 0 && x < y < x + n
    ensures Wrap(x, n) != Wrap(y, n)
  {
    WrapIsMod(x, n);
    WrapIsMod(y, n);
    ModDistinct(x, y, n);
  }
}
