/** Increasing sequences of instants, and what it is to be the first few of a set. */
module Ordered {

  predicate Increasing(s: seq<int>) {
    forall i, j | 0 <= i < j < |s| :: s[i] < s[j]
  }

  /** `out` lists, in increasing order, the `limit` smallest members of `S` (all of them if fewer). */
  ghost predicate FirstOf(out: seq<int>, limit: nat, S: iset<int>) {
    && Increasing(out)
    && |out| <= limit
    && (forall t | t in out :: t in S)
    && (forall t | t in S :: t in out || (|out| == limit && forall u | u in out :: u < t))
  }

  /** A search that has listed every member of `S` below `frontier`, in order. */
  ghost predicate Progress(found: seq<int>, limit: nat, S: iset<int>, frontier: int) {
    && Increasing(found)
    && |found| <= limit
    && (forall t | t in found :: t in S && t < frontier)
    && (forall t | t in S && t < frontier :: t in found)
  }

  /** Moving the frontier over instants outside `S`. */
  lemma ProgressSkip(found: seq<int>, limit: nat, S: iset<int>, a: int, b: int)
    requires Progress(found, limit, S, a) && a <= b
    requires forall t | a <= t < b :: t !in S
    ensures Progress(found, limit, S, b)
  {
  }

  /** Moving the frontier past its one member of `S`. */
  lemma ProgressTake(found: seq<int>, limit: nat, S: iset<int>, a: int, b: int)
    requires Progress(found, limit, S, a) && a < b && a in S && |found| < limit
    requires forall t | a < t < b :: t !in S
    ensures Progress(found + [a], limit, S, b)
  {
    var after := found + [a];
    forall i, j | 0 <= i < j < |after|
      ensures after[i] < after[j]
    {
      assert after[i] == found[i] && found[i] in found;
    }
    forall t | t in S && t < b
      ensures t in after
    {
      if t != a {
        assert t in found;
      }
    }
  }

  /** A search stops when it is full, or when nothing is left beyond the frontier. */
  lemma ProgressDone(found: seq<int>, limit: nat, S: iset<int>, frontier: int)
    requires Progress(found, limit, S, frontier)
    requires |found| == limit || forall t | t in S :: t < frontier
    ensures FirstOf(found, limit, S)
  {
  }

  lemma {:induction false} IncreasingSize(s: seq<int>)
    requires Increasing(s)
    ensures |set t | t in s| == |s|
  {
    if s != [] {
      var front, last := s[..|s| - 1], s[|s| - 1];
      IncreasingSize(front);
      assert forall t :: t in s <==> t in front || t == last by {
        assert s == front + [last];
      }
      assert last !in front;
      assert (set t | t in s) == (set t | t in front) + {last};
    }
  }

  lemma SubsetShorter(a: seq<int>, b: seq<int>)
    requires Increasing(a) && Increasing(b)
    requires forall t | t in a :: t in b
    ensures |a| <= |b|
  {
    IncreasingSize(a);
    IncreasingSize(b);
    SubsetSize(set t | t in a, set t | t in b);
  }

  lemma SomeMember<T>(s: set<T>) returns (x: T)
    requires s != {}
    ensures x in s
  {
    x :| x in s;
  }

  lemma SubsetSize<T>(a: set<T>, b: set<T>)
    requires a <= b
    ensures |a| <= |b|
  {
    assert b == a + (b - a);
    assert |a + (b - a)| == |a| + |b - a|;
  }

  /** The description fixes the list. */
  lemma FirstOfUnique(a: seq<int>, b: seq<int>, limit: nat, S: iset<int>)
    requires FirstOf(a, limit, S) && FirstOf(b, limit, S)
    ensures a == b
  {
    FirstOfWithin(a, b, limit, S);
    FirstOfWithin(b, a, limit, S);
    SubsetShorter(a, b);
    SubsetShorter(b, a);
    SameElements(a, b);
  }

  lemma FirstOfWithin(a: seq<int>, b: seq<int>, limit: nat, S: iset<int>)
    requires FirstOf(a, limit, S) && FirstOf(b, limit, S)
    ensures forall t | t in a :: t in b
  {
    if t :| t in a && t !in b {
      assert t in S;
      var bt := b + [t];
      assert Increasing(bt) by {
        forall i, j | 0 <= i < j < |bt|
          ensures bt[i] < bt[j]
        {
          assert bt[i] in b;
        }
      }
      SubsetShorter(bt, a);
    }
  }

  lemma {:induction false} SameElements(a: seq<int>, b: seq<int>)
    requires Increasing(a) && Increasing(b) && |a| == |b|
    requires forall t | t in a :: t in b
    requires forall t | t in b :: t in a
    ensures a == b
  {
    if a != [] {
      var n := |a| - 1;
      assert a[n] in b && b[n] in a;
      DropLast(a, b);
      DropLast(b, a);
      SameElements(a[..n], b[..n]);
      assert a == a[..n] + [a[n]] && b == b[..n] + [b[n]];
    }
  }

  lemma DropLast(a: seq<int>, b: seq<int>)
    requires Increasing(a) && Increasing(b) && |a| == |b| > 0
    requires a[|a| - 1] == b[|b| - 1]
    requires forall t | t in a :: t in b
    ensures forall i | 0 <= i < |a| - 1 :: a[i] in b[..|b| - 1]
  {
    forall i | 0 <= i < |a| - 1
      ensures a[i] in b[..|b| - 1]
    {
      assert a[i] in b && a[i] < a[|a| - 1];
    }
  }

  /**
   Truncation loses nothing.  Each list holds the first `deep` members of its own set; the first
   `keep` of everything listed are then the first `keep` of the union of the whole sets.
   */
  lemma MergeLosesNothing(lists: seq<seq<int>>, sets: seq<iset<int>>, deep: nat, keep: nat,
                          merged: iset<int>, union: iset<int>, out: seq<int>)
    requires |lists| == |sets| && keep <= deep
    requires forall i | 0 <= i < |lists| :: FirstOf(lists[i], deep, sets[i])
    requires forall t :: t in merged <==> exists i | 0 <= i < |lists| :: t in lists[i]
    requires forall t :: t in union <==> exists i | 0 <= i < |sets| :: t in sets[i]
    requires FirstOf(out, keep, merged)
    ensures FirstOf(out, keep, union)
  {
    forall t | t in out
      ensures t in union
    {
      var i :| 0 <= i < |lists| && t in lists[i];
      assert t in sets[i];
    }
    forall t | t in union && t !in out
      ensures |out| == keep && forall u | u in out :: u < t
    {
      var i :| 0 <= i < |sets| && t in sets[i];
      if t in lists[i] {
        assert t in merged;
      } else {
        CutListCrowdsOut(lists[i], deep, keep, merged, out, t);
      }
    }
  }

  /** A list cut at `deep` entries, all below `t`, already fills the `keep` places before `t`. */
  lemma CutListCrowdsOut(list: seq<int>, deep: nat, keep: nat, merged: iset<int>, out: seq<int>, t: int)
    requires Increasing(list) && |list| == deep && keep <= deep
    requires forall u | u in list :: u < t && u in merged
    requires FirstOf(out, keep, merged) && t !in out
    ensures |out| == keep && forall u | u in out :: u < t
  {
    if |out| < keep {
      SubsetShorter(list, out);
    }
    if k :| 0 <= k < |out| && out[k] >= t {
      forall u | u in list
        ensures u in out[..k]
      {
        assert out[k] in out && !(out[k] < u);
        assert u in out;
        var m :| 0 <= m < |out| && out[m] == u;
        assert m < k;
      }
      SubsetShorter(list, out[..k]);
    }
  }
}
