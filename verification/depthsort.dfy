/** The draw order of `MainWindow.update` (app.py lines 302-310): Python's
    `sorted` with the depth as key, which is stable, so cubes at equal depth
    keep their list order.  The order is a permutation of the cube indices. */
module DepthSort {

  /** Index i is drawn before index j: smaller depth first, list order on a
      tie. */
  predicate Before(zs: seq<real>, i: nat, j: nat)
    requires i < |zs| && j < |zs|
  {
    zs[i] < zs[j] || (zs[i] == zs[j] && i < j)
  }

  /** All entries are indices into zs. */
  predicate Indices(zs: seq<real>, o: seq<nat>) {
    forall k :: 0 <= k < |o| ==> o[k] < |zs|
  }

  /** Every earlier entry comes `Before` every later one. */
  predicate Sorted(zs: seq<real>, o: seq<nat>)
    requires Indices(zs, o)
  {
    forall a, b :: 0 <= a < b < |o| ==> Before(zs, o[a], o[b])
  }

  /** The indices 0, ..., n - 1 in list order. */
  function Range(n: nat): (r: seq<nat>)
    ensures |r| == n && forall k :: 0 <= k < n ==> r[k] == k
  {
    if n == 0 then [] else Range(n - 1) + [n - 1]
  }

  /** Insert index k into a sorted o whose entries are all smaller than k:
      k goes after every entry of depth at most zs[k]. */
  function Insert(zs: seq<real>, o: seq<nat>, k: nat): (r: seq<nat>)
    requires k < |zs| && Indices(zs, o) && Sorted(zs, o)
    requires forall a :: 0 <= a < |o| ==> o[a] < k
    ensures Indices(zs, r) && Sorted(zs, r)
    ensures multiset(r) == multiset(o) + multiset{k}
  {
    if |o| == 0 then [k]
    else if zs[k] < zs[o[0]] then
      [k] + o
    else
      var rest := Insert(zs, o[1..], k);
      assert multiset(o) == multiset{o[0]} + multiset(o[1..]) by {
        assert o == [o[0]] + o[1..];
      }
      InsertHeadBefore(zs, o, k, rest);
      [o[0]] + rest
  }

  /** The head of o comes before everything in its tail and before k, hence
      before everything in the tail with k inserted. */
  lemma InsertHeadBefore(zs: seq<real>, o: seq<nat>, k: nat, rest: seq<nat>)
    requires k < |zs| && Indices(zs, o) && Sorted(zs, o) && |o| > 0
    requires forall a :: 0 <= a < |o| ==> o[a] < k
    requires !(zs[k] < zs[o[0]])
    requires Indices(zs, rest) && Sorted(zs, rest)
    requires multiset(rest) == multiset(o[1..]) + multiset{k}
    ensures Indices(zs, [o[0]] + rest) && Sorted(zs, [o[0]] + rest)
  {
    var r := [o[0]] + rest;
    forall b | 0 < b < |r|
      ensures Before(zs, o[0], r[b])
    {
      var x := r[b];
      assert x in multiset(rest);
      if x == k {
      } else {
        assert x in multiset(o[1..]);
        var a :| 0 <= a < |o[1..]| && o[1..][a] == x;
        assert o[a + 1] == x;
      }
    }
  }

  /** The first n indices in draw order. */
  function SortPrefix(zs: seq<real>, n: nat): (o: seq<nat>)
    requires n <= |zs|
    ensures Indices(zs, o) && Sorted(zs, o)
    ensures multiset(o) == multiset(Range(n))
    ensures forall a :: 0 <= a < |o| ==> o[a] < n
  {
    if n == 0 then []
    else
      var o := SortPrefix(zs, n - 1);
      assert Range(n) == Range(n - 1) + [n - 1];
      var r := Insert(zs, o, n - 1);
      assert forall a :: 0 <= a < |r| ==> r[a] in multiset(r);
      r
  }

  /** `sorted(mytuples, key=lambda x: x[0])` as the list of positions in the
      original list: a stable ascending order by depth that lists every cube
      exactly once. */
  function DrawOrder(zs: seq<real>): (o: seq<nat>)
    ensures |o| == |zs|
    ensures Indices(zs, o) && Sorted(zs, o)
    ensures multiset(o) == multiset(Range(|zs|))
  {
    var o := SortPrefix(zs, |zs|);
    assert |o| == |multiset(o)| == |multiset(Range(|zs|))| == |zs|;
    o
  }

  /** `Before` is asymmetric. */
  lemma BeforeAsymmetric(zs: seq<real>, i: nat, j: nat)
    requires i < |zs| && j < |zs|
    ensures !(Before(zs, i, j) && Before(zs, j, i))
  {}

  /** Two sorted lists of the same indices are the same list: the stable
      order is the only order `Sorted` admits, so `DrawOrder` is exactly the
      order Python's stable sort produces. */
  lemma {:induction false} SortedUnique(zs: seq<real>, o1: seq<nat>, o2: seq<nat>)
    requires Indices(zs, o1) && Sorted(zs, o1)
    requires Indices(zs, o2) && Sorted(zs, o2)
    requires multiset(o1) == multiset(o2)
    ensures o1 == o2
    decreases |o1|
  {
    assert |o1| == |multiset(o1)| == |multiset(o2)| == |o2|;
    if |o1| > 0 {
      SortedHeads(zs, o1, o2);
      MultisetHeadTail(o1);
      MultisetHeadTail(o2);
      SortedUnique(zs, o1[1..], o2[1..]);
      assert o1 == [o1[0]] + o1[1..] && o2 == [o2[0]] + o2[1..];
    }
  }

  /** Two non-empty sorted lists of the same indices start alike. */
  lemma SortedHeads(zs: seq<real>, o1: seq<nat>, o2: seq<nat>)
    requires Indices(zs, o1) && Sorted(zs, o1)
    requires Indices(zs, o2) && Sorted(zs, o2)
    requires multiset(o1) == multiset(o2) && |o1| > 0 && |o2| > 0
    ensures o1[0] == o2[0]
  {
    var h1, h2 := o1[0], o2[0];
    if h1 != h2 {
      assert h1 in multiset(o2);
      var b :| 0 <= b < |o2| && o2[b] == h1;
      assert h2 in multiset(o1);
      var a :| 0 <= a < |o1| && o1[a] == h2;
      BeforeAsymmetric(zs, h1, h2);
      assert false;
    }
  }

  lemma MultisetHeadTail(o: seq<nat>)
    requires |o| > 0
    ensures multiset(o) == multiset{o[0]} + multiset(o[1..])
    ensures multiset(o[1..]) == multiset(o) - multiset{o[0]}
  {
    assert o == [o[0]] + o[1..];
  }

}
