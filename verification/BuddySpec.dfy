// The buddy allocator on values: a set of live blocks and one list of free blocks per order. The
// allocator class is proved against these functions; this module proves what they promise.
module BuddySpec {
  import opened Sequences
  import opened BuddyTree
  import opened BuddySteps

  type Lists = seq<seq<nat>>

  // The free lists say exactly what the live blocks say.
  ghost predicate Canonical(n: nat, live: set<nat>, lists: Lists) {
    && |lists| == n + 1
    && Separate(live)
    && (forall l :: l in live ==> Depth(l) <= n)
    && (forall k :: 0 <= k <= n ==> NoDup(lists[k]))
    && (forall k, x :: 0 <= k <= n ==> (x in lists[k] <==> Depth(x) == n - k && Maximal(live, x)))
  }

  // ----- the operations

  // The smallest order from i on whose list is not empty; |lists| when there is none.
  function FirstAvail(lists: Lists, i: nat): (j: nat)
    requires i <= |lists|
    ensures i <= j <= |lists|
    ensures j < |lists| ==> lists[j] != []
    ensures forall m :: i <= m < j ==> lists[m] == []
    decreases |lists| - i
  {
    if i == |lists| || lists[i] != [] then i else FirstAvail(lists, i + 1)
  }

  // Split block x of order i down to order k, keeping the left half at every level.
  function Descend(lists: Lists, x: nat, i: nat, k: nat): (r: (Lists, nat))
    requires k <= i < |lists|
    ensures |r.0| == |lists|
    decreases i
  {
    if i == k then (lists, x)
    else Descend(lists[i - 1 := [2 * x + 2]], 2 * x + 1, i - 1, k)
  }

  lemma DescendOnce(lists: Lists, x: nat, i: nat, k: nat)
    requires k < i < |lists|
    ensures Descend(lists, x, i, k) == Descend(lists[i - 1 := [2 * x + 2]], 2 * x + 1, i - 1, k)
  {
  }

  lemma DescendEnd(lists: Lists, x: nat, k: nat)
    requires k < |lists|
    ensures Descend(lists, x, k, k) == (lists, x)
  {
  }

  function Alloc(lists: Lists, k: nat): Option<(Lists, nat)>
    requires k < |lists|
  {
    var i := FirstAvail(lists, k);
    if i == |lists| then None
    else Some(Descend(lists[i := lists[i][1..]], lists[i][0], i, k))
  }

  // Release block c of order k, joining it with its sibling for as long as the sibling is free.
  ghost function Coalesce(base: set<nat>, lists: Lists, c: nat, k: nat): (r: Lists)
    requires k + Depth(c) + 1 == |lists|
    ensures |r| == |lists|
    decreases c
  {
    if c == 0 || Bit(base, Sibling(c)) then lists[k := [c] + lists[k]]
    else Coalesce(base, lists[k := Without(lists[k], Sibling(c))], Parent(c), k + 1)
  }

  lemma CoalesceOnce(base: set<nat>, lists: Lists, c: nat, k: nat)
    requires k + Depth(c) + 1 == |lists|
    ensures Coalesce(base, lists, c, k) ==
            if c == 0 || Bit(base, Sibling(c)) then lists[k := [c] + lists[k]]
            else Coalesce(base, lists[k := Without(lists[k], Sibling(c))], Parent(c), k + 1)
  {
  }

  // ----- one step at a time

  lemma TakeStep(n: nat, live: set<nat>, lists: Lists, k: nat)
    requires Canonical(n, live, lists) && k <= n && lists[k] != []
    ensures var x := lists[k][0]; x !in live && Maximal(live, x) && Depth(x) == n - k
    ensures Canonical(n, live + {lists[k][0]}, lists[k := lists[k][1..]])
  {
    var x := lists[k][0];
    assert x in lists[k];
    Take(live, x);
    TailMember(lists[k]);
  }

  lemma SplitStep(n: nat, live: set<nat>, lists: Lists, x: nat, i: nat)
    requires 0 < i <= n && x !in live && Depth(x) == n - i
    requires Canonical(n, live + {x}, lists) && lists[i - 1] == []
    ensures 2 * x + 1 !in live && Depth(2 * x + 1) == n - (i - 1)
    ensures Canonical(n, live + {2 * x + 1}, lists[i - 1 := [2 * x + 2]])
  {
    hide Contains;
    assert Parent(2 * x + 1) == x && Sibling(2 * x + 1) == 2 * x + 2;
    assert Depth(2 * x + 2) == n - (i - 1) by {
      assert Parent(2 * x + 2) == x;
    }
    Child(live, 2 * x + 1);
  }

  lemma MergeStep(n: nat, live: set<nat>, lists: Lists, c: nat, k: nat)
    requires c > 0 && c !in live && k <= n && Depth(c) == n - k
    requires Canonical(n, live + {c}, lists) && !Bit(live + {c}, Sibling(c))
    ensures k < n && Parent(c) !in live && Depth(Parent(c)) == n - (k + 1)
    ensures Sibling(c) in lists[k] && Separate(live + {Parent(c)})
    ensures Canonical(n, live + {Parent(c)}, lists[k := Without(lists[k], Sibling(c))])
  {
    hide Contains;
    ClearBitMeansFree(live, c);
    Child(live, c);
    SiblingsApart(c);
    WithoutMember(lists[k], Sibling(c));
  }

  lemma ReleaseStep(n: nat, live: set<nat>, lists: Lists, c: nat, k: nat)
    requires c !in live && k <= n && Depth(c) == n - k
    requires Canonical(n, live + {c}, lists) && (c == 0 || Bit(live + {c}, Sibling(c)))
    ensures c !in lists[k]
    ensures Canonical(n, live, lists[k := [c] + lists[k]])
  {
    Release(live, c);
    assert c in live + {c};
    assert forall l :: l in live ==> l in live + {c};
  }
}
