/** Filtering a list with a predicate that looks only at each element's index,
    which is how the aggregation tab deletes, splits and takes prefixes of its
    stage lists. */
module ArrayOps {
  import opened Types

  /** Keeps, in order, the elements whose index satisfies `keep`. */
  function FilterByIndex<T>(s: seq<T>, keep: nat -> bool): (r: seq<T>)
    ensures |r| <= |s|
    decreases |s|
  {
    if s == [] then []
    else FilterByIndex(s[..|s| - 1], keep) + (if keep(|s| - 1) then [s[|s| - 1]] else [])
  }

  /** Keeping the indices up to k gives the prefix that ends at index k. */
  lemma {:induction false} FilterKeepsPrefix<T>(s: seq<T>, keep: nat -> bool, k: nat)
    requires forall j: nat :: keep(j) == (j <= k)
    ensures FilterByIndex(s, keep) == s[..Min(k + 1, |s|)]
    decreases |s|
  {
    if s != [] {
      var n := |s| - 1;
      FilterKeepsPrefix(s[..n], keep, k);
      assert s[..n][..Min(k + 1, n)] == s[..Min(k + 1, n)];
      if n <= k {
        assert s[..n] + [s[n]] == s;
      }
    }
  }

  /** Keeping the indices after k gives the suffix that starts after index k. */
  lemma {:induction false} FilterDropsPrefix<T>(s: seq<T>, keep: nat -> bool, k: nat)
    requires forall j: nat :: keep(j) == (j > k)
    ensures FilterByIndex(s, keep) == s[Min(k + 1, |s|)..]
    decreases |s|
  {
    if s != [] {
      var n := |s| - 1;
      FilterDropsPrefix(s[..n], keep, k);
      if n > k {
        assert s[..n][k + 1..] + [s[n]] == s[k + 1..];
      }
    }
  }

  /** Keeping every index but r removes index r, or nothing when r is out of range. */
  lemma {:induction false} FilterDropsIndex<T>(s: seq<T>, keep: nat -> bool, r: nat)
    requires forall j: nat :: keep(j) == (j != r)
    ensures FilterByIndex(s, keep) == if r < |s| then s[..r] + s[r + 1..] else s
    decreases |s|
  {
    if s != [] {
      var n := |s| - 1;
      FilterDropsIndex(s[..n], keep, r);
      if r < n {
        assert s[..n][..r] + s[..n][r + 1..] + [s[n]] == s[..r] + s[r + 1..];
      } else if r == n {
        assert s[..r] + s[r + 1..] == s[..n];
      } else {
        assert s[..n] + [s[n]] == s;
      }
    }
  }
}
