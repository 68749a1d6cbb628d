/**
 * Ordered selections over a table keyed by the store's id counter. Because
 * the counter also stamps `createdAt`, listing matching keys in ascending or
 * descending order is the store's `order("created_at", ...)`.
 */
module Tables {

  /** The keys below `n` whose rows satisfy `keep`, oldest first. */
  function Ascending<T>(m: map<nat, T>, keep: T -> bool, n: nat): (r: seq<nat>)
    ensures forall i :: 0 <= i < |r| ==> r[i] < n && r[i] in m && keep(m[r[i]])
    ensures forall i, j :: 0 <= i < j < |r| ==> r[i] < r[j]
    decreases n
  {
    if n == 0 then []
    else
      var older := Ascending(m, keep, n - 1);
      if n - 1 in m && keep(m[n - 1]) then older + [n - 1] else older
  }

  /** The keys below `n` whose rows satisfy `keep`, newest first. */
  function Descending<T>(m: map<nat, T>, keep: T -> bool, n: nat): (r: seq<nat>)
    ensures forall i :: 0 <= i < |r| ==> r[i] < n && r[i] in m && keep(m[r[i]])
    ensures forall i, j :: 0 <= i < j < |r| ==> r[i] > r[j]
    decreases n
  {
    if n == 0 then []
    else
      var older := Descending(m, keep, n - 1);
      if n - 1 in m && keep(m[n - 1]) then [n - 1] + older else older
  }

  /** Every kept key below the bound is listed oldest-first. */
  lemma {:induction false} AscendingComplete<T>(m: map<nat, T>, keep: T -> bool, n: nat, k: nat)
    requires k < n && k in m && keep(m[k])
    ensures k in Ascending(m, keep, n)
    decreases n
  {
    if k < n - 1 {
      AscendingComplete(m, keep, n - 1, k);
    }
  }

  /** Every kept key below the bound is listed newest-first. */
  lemma {:induction false} DescendingComplete<T>(m: map<nat, T>, keep: T -> bool, n: nat, k: nat)
    requires k < n && k in m && keep(m[k])
    ensures k in Descending(m, keep, n)
    decreases n
  {
    if k < n - 1 {
      DescendingComplete(m, keep, n - 1, k);
    }
  }

  /** An empty oldest-first listing means that no key below the bound is kept. */
  lemma {:induction false} AscendingNoneKept<T>(m: map<nat, T>, keep: T -> bool, n: nat)
    requires Ascending(m, keep, n) == []
    ensures forall k :: 0 <= k < n && k in m ==> !keep(m[k])
  {
    forall k | 0 <= k < n && k in m && keep(m[k])
      ensures false
    {
      AscendingComplete(m, keep, n, k);
    }
  }

  /** The rows at the given keys, in the same order. */
  function Rows<T>(m: map<nat, T>, ids: seq<nat>): (r: seq<T>)
    requires forall i :: 0 <= i < |ids| ==> ids[i] in m
    ensures |r| == |ids|
    ensures forall i :: 0 <= i < |ids| ==> r[i] == m[ids[i]]
  {
    seq(|ids|, i requires 0 <= i < |ids| => m[ids[i]])
  }

  /** Nothing matches when no row below the bound is kept. */
  lemma {:induction false} AscendingEmpty<T>(m: map<nat, T>, keep: T -> bool, n: nat)
    requires forall k :: 0 <= k < n && k in m ==> !keep(m[k])
    ensures Ascending(m, keep, n) == []
    decreases n
  {
    if n > 0 {
      AscendingEmpty(m, keep, n - 1);
    }
  }

  /**
   * Adding rows at the keys lo..hi-1, all kept, on top of a table whose kept
   * rows are below lo, lists exactly the new keys in ascending order.
   */
  lemma {:induction false} AscendingOfFreshBlock<T>(m: map<nat, T>, keep: T -> bool, lo: nat, hi: nat)
    requires lo <= hi
    requires forall k :: 0 <= k < lo && k in m ==> !keep(m[k])
    requires forall k :: lo <= k < hi ==> k in m && keep(m[k])
    ensures var r := Ascending(m, keep, hi);
      |r| == hi - lo && forall i :: 0 <= i < |r| ==> r[i] == lo + i
    decreases hi
  {
    if hi == lo {
      AscendingEmpty(m, keep, lo);
    } else {
      assert hi - 1 in m && keep(m[hi - 1]);
      AscendingOfFreshBlock(m, keep, lo, hi - 1);
      var older := Ascending(m, keep, hi - 1);
      var r := Ascending(m, keep, hi);
      assert r == older + [hi - 1];
      forall i | 0 <= i < |r|
        ensures r[i] == lo + i
      {
        if i < |older| {
          assert r[i] == older[i];
        }
      }
    }
  }
}
