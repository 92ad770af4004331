/**
 * Index permutations: the model of what `random.shuffle` and `random.sample`
 * hand back to the player. The player never inspects the randomness itself,
 * so a caller supplies the permutation and the model only relies on it being
 * one.
 */
module Permutations {

  /** `p` lists every index of `0..n-1` exactly once. */
  predicate IsPermutation(p: seq<int>, n: nat) {
    && |p| == n
    && (forall i :: 0 <= i < n ==> 0 <= p[i] < n)
    && (forall i, j :: 0 <= i < j < n ==> p[i] != p[j])
  }

  /** The indices `0, 1, ..., n-1` in order, i.e. Python's `range(n)`. */
  function Range(n: nat): (r: seq<int>)
    ensures |r| == n
    ensures forall i :: 0 <= i < n ==> r[i] == i
  {
    seq(n, i => i)
  }

  /** `s` rearranged so that position `i` holds `s[p[i]]`. */
  function Permute<T>(s: seq<T>, p: seq<int>): (r: seq<T>)
    requires IsPermutation(p, |s|)
    ensures |r| == |s|
  {
    seq(|s|, i requires 0 <= i < |s| => s[p[i]])
  }

  /** `p` with the index `m` taken out and the indices above it closed up. */
  function CloseUp(p: seq<int>, m: int): (r: seq<int>)
    ensures |r| == |p|
  {
    seq(|p|, i requires 0 <= i < |p| => if p[i] < m then p[i] else p[i] - 1)
  }

  /** Rearranging a sequence by a permutation keeps exactly its elements. */
  lemma {:induction false} PermutePreservesMultiset<T>(s: seq<T>, p: seq<int>)
    requires IsPermutation(p, |s|)
    ensures multiset(Permute(s, p)) == multiset(s)
    decreases |s|
  {
    if |s| > 0 {
      var n := |s|;
      var m := p[0];
      var rest := s[..m] + s[m + 1..];
      var q := CloseUp(p[1..], m);
      forall i, j | 0 <= i < j < n - 1
        ensures q[i] != q[j]
      {
        assert p[i + 1] != p[j + 1];
        assert p[i + 1] != m && p[j + 1] != m;
      }
      forall i | 0 <= i < n - 1
        ensures 0 <= q[i] < n - 1
      {
        assert p[i + 1] != p[0];
      }
      assert IsPermutation(q, |rest|);
      PermutePreservesMultiset(rest, q);
      forall i | 0 <= i < n - 1
        ensures Permute(rest, q)[i] == s[p[i + 1]]
      {
        assert p[i + 1] != p[0];
      }
      assert Permute(s, p) == [s[m]] + Permute(rest, q);
      assert s == s[..m] + [s[m]] + s[m + 1..];
      calc {
        multiset(s);
        multiset(s[..m]) + multiset{s[m]} + multiset(s[m + 1..]);
        multiset{s[m]} + multiset(rest);
        multiset([s[m]] + Permute(rest, q));
      }
    }
  }

  /**
   * A permutation of `0..n-1` holds the same indices as `range(n)`, so every
   * index of the playlist occurs in it, exactly once.
   */
  lemma PermutationOfRange(p: seq<int>, n: nat)
    requires IsPermutation(p, n)
    ensures multiset(p) == multiset(Range(n))
    ensures forall j :: 0 <= j < n ==> j in p
  {
    assert Permute(Range(n), p) == p;
    PermutePreservesMultiset(Range(n), p);
    forall j | 0 <= j < n
      ensures j in p
    {
      assert Range(n)[j] == j;
      assert j in multiset(Range(n));
    }
  }
}
