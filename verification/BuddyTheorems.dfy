// What the buddy allocator promises, over whole operations and whole runs.
module BuddyTheorems {
  import opened Powers
  import opened BuddyTree
  import opened BuddySteps
  import opened BuddyBlocks
  import opened Sequences
  import opened BuddySpec

  // ----- whole operations

  lemma {:induction false} DescendOk(n: nat, live: set<nat>, lists: Lists, x: nat, i: nat, k: nat)
    requires k <= i <= n && x !in live && Depth(x) == n - i
    requires Canonical(n, live + {x}, lists)
    requires forall m :: k <= m < i ==> lists[m] == []
    ensures var (after, y) := Descend(lists, x, i, k);
            y !in live && Depth(y) == n - k && Canonical(n, live + {y}, after)
    decreases i
  {
    if k < i {
      SplitStep(n, live, lists, x, i);
      DescendOk(n, live, lists[i - 1 := [2 * x + 2]], 2 * x + 1, i - 1, k);
    }
  }

  // An allocation takes a block of the order asked for that overlaps no live block, and leaves the
  // lists canonical.
  lemma AllocOk(n: nat, live: set<nat>, lists: Lists, k: nat)
    requires Canonical(n, live, lists) && k <= n && Alloc(lists, k).Some?
    ensures var (after, y) := Alloc(lists, k).value;
            y !in live && Clear(live, y) && Depth(y) == n - k && Canonical(n, live + {y}, after)
  {
    var i := FirstAvail(lists, k);
    var x := lists[i][0];
    TakeStep(n, live, lists, i);
    DescendOk(n, live, lists[i := lists[i][1..]], x, i, k);
    var y := Alloc(lists, k).value.1;
    assert y in live + {y};
    assert forall l :: l in live ==> l in live + {y};
  }

  lemma {:induction false} CoalesceOk(n: nat, base: set<nat>, lists: Lists, c: nat, k: nat)
    requires c !in base && k <= n && Depth(c) == n - k && Canonical(n, base + {c}, lists)
    ensures Canonical(n, base, Coalesce(base, lists, c, k))
    decreases c
  {
    SiblingBit(base, c);
    if c == 0 || Bit(base, Sibling(c)) {
      ReleaseStep(n, base, lists, c, k);
    } else {
      MergeStep(n, base, lists, c, k);
      CoalesceOk(n, base, lists[k := Without(lists[k], Sibling(c))], Parent(c), k + 1);
    }
  }

  // The block under release does not show in its sibling's bit.
  lemma SiblingBit(base: set<nat>, c: nat)
    ensures c > 0 ==> (Bit(base + {c}, Sibling(c)) <==> Bit(base, Sibling(c)))
  {
    if c > 0 {
      AddBlock(base, c);
      SiblingsApart(c);
    }
  }

  // ----- the canonical state

  lemma {:induction false} SameMembersSameBag(a: seq<nat>, b: seq<nat>)
    requires NoDup(a) && NoDup(b) && forall x: nat :: x in a <==> x in b
    ensures multiset(a) == multiset(b)
  {
    if a == [] {
      assert forall j :: 0 <= j < |b| ==> b[j] in b;
    } else {
      var x := a[0];
      TailMember(a);
      WithoutMember(b, x);
      SameMembersSameBag(a[1..], Without(b, x));
      WithoutBag(b, x);
      assert a == [x] + a[1..];
    }
  }

  lemma {:induction false} WithoutBag(s: seq<nat>, v: nat)
    requires v in s
    ensures multiset(s) == multiset(Without(s, v)) + multiset{v}
  {
    assert s == [s[0]] + s[1..];
    if s[0] != v {
      WithoutBag(s[1..], v);
    }
  }

  // The free lists are a function of the live blocks, up to the order inside one list.
  lemma CanonicalUnique(n: nat, live: set<nat>, a: Lists, b: Lists)
    requires Canonical(n, live, a) && Canonical(n, live, b)
    ensures forall k :: 0 <= k <= n ==> multiset(a[k]) == multiset(b[k])
  {
    forall k | 0 <= k <= n
      ensures multiset(a[k]) == multiset(b[k])
    {
      assert forall x: nat :: x in a[k] <==> Depth(x) == n - k && Maximal(live, x);
      assert forall x: nat :: x in b[k] <==> Depth(x) == n - k && Maximal(live, x);
      SameMembersSameBag(a[k], b[k]);
    }
  }

  function InitLists(n: nat): (lists: Lists)
    ensures |lists| == n + 1
  {
    seq(n + 1, k => if k == n then [0] else [])
  }

  lemma InitCanonical(n: nat)
    ensures Canonical(n, {}, InitLists(n))
  {
    assert forall x: nat :: Depth(x) == 0 <==> x == 0;
  }

  // With nothing live the lists are exactly what initialisation made them.
  lemma EmptyIsInit(n: nat, lists: Lists)
    requires Canonical(n, {}, lists)
    ensures lists == InitLists(n)
  {
    InitCanonical(n);
    CanonicalUnique(n, {}, InitLists(n), lists);
    forall k | 0 <= k <= n
      ensures lists[k] == InitLists(n)[k]
    {
      assert |lists[k]| == |multiset(lists[k])| == |multiset(InitLists(n)[k])| == |InitLists(n)[k]|;
      if k == n {
        assert lists[k][0] in multiset(lists[k]);
      }
    }
  }

  // Freed blocks are always joined: a block and its sibling are never both on a list.
  lemma FullyCoalesced(n: nat, live: set<nat>, lists: Lists, k: nat, c: nat)
    requires Canonical(n, live, lists) && k <= n && c > 0 && c in lists[k]
    ensures Sibling(c) !in lists[k]
  {
    SiblingsApart(c);
    assert Contains(Parent(c), c);
    var l :| l in live && Contains(Parent(c), l);
    if l != Parent(c) {
      ContainsThroughChild(Parent(c), l);
    }
  }

  // ----- exact failure

  function LeftMost(x: nat, d: nat): nat
    decreases d
  {
    if d == 0 then x else LeftMost(2 * x + 1, d - 1)
  }

  lemma {:induction false} LeftMostInside(x: nat, d: nat)
    ensures Contains(x, LeftMost(x, d)) && Depth(LeftMost(x, d)) == Depth(x) + d
    decreases d
  {
    if d > 0 {
      LeftMostInside(2 * x + 1, d - 1);
      ContainsTransitive(x, 2 * x + 1, LeftMost(x, d));
    }
  }

  // Above every free block there is a maximal one.
  lemma {:induction false} MaximalAbove(live: set<nat>, x: nat) returns (m: nat)
    requires Clear(live, x)
    ensures Maximal(live, m) && Contains(m, x) && Depth(m) <= Depth(x)
  {
    if x == 0 || Holds(live, Parent(x)) {
      m := x;
    } else {
      assert forall l :: Contains(l, Parent(x)) ==> Contains(l, x);
      m := MaximalAbove(live, Parent(x));
      assert Contains(Parent(x), x);
      ContainsTransitive(m, Parent(x), x);
    }
  }

  // An allocation of order k fails exactly when every block of order k overlaps a live block.
  lemma AllocFails(n: nat, live: set<nat>, lists: Lists, k: nat)
    requires Canonical(n, live, lists) && k <= n
    ensures Alloc(lists, k) == None <==> forall x :: Depth(x) == n - k ==> !Clear(live, x)
  {
    hide Contains, Clear, Canonical;
    assert |lists| == n + 1 by { ListCount(n, live, lists); }
    var i := FirstAvail(lists, k);
    if i <= n {
      ClearInside(n, live, lists, k, i);
    }
    forall x | Depth(x) == n - k && Clear(live, x)
      ensures i <= n
    {
      ClearListed(n, live, lists, k, x);
    }
  }

  lemma ListCount(n: nat, live: set<nat>, lists: Lists)
    requires Canonical(n, live, lists)
    ensures |lists| == n + 1
  {
  }

  // A clear block of order k lies in a listed one.
  lemma ClearListed(n: nat, live: set<nat>, lists: Lists, k: nat, x: nat)
    requires Canonical(n, live, lists) && k <= n && Depth(x) == n - k && Clear(live, x)
    ensures FirstAvail(lists, k) <= n
  {
    var m := MaximalAbove(live, x);
    assert m in lists[n - Depth(m)];
  }

  // A listed block of order i has a clear block of any smaller order k inside it.
  lemma ClearInside(n: nat, live: set<nat>, lists: Lists, k: nat, i: nat)
    requires Canonical(n, live, lists) && k <= i <= n && lists[i] != []
    ensures exists x :: Depth(x) == n - k && Clear(live, x)
  {
    var x := lists[i][0];
    assert x in lists[i];
    LeftMostInside(x, i - k);
    ClearDown(live, x, LeftMost(x, i - k));
  }

  // ----- allocation undone by the matching free

  lemma {:induction false} DescendUndone(n: nat, live: set<nat>, lists: Lists, x: nat, i: nat, k: nat)
    requires k <= i <= n && |lists| == n + 1 && Depth(x) == n - i && Clear(live, x)
    requires forall m :: k <= m < i ==> lists[m] == []
    ensures var (after, y) := Descend(lists, x, i, k);
            Depth(y) == n - k && Coalesce(live, after, y, k) == Coalesce(live, lists, x, i)
    decreases i
  {
    hide *;
    if k < i {
      var l, r := 2 * x + 1, 2 * x + 2;
      HalvesOf(live, x);
      ClearDown(live, x, l);
      ClearDown(live, x, r);
      var split := lists[i - 1 := [r]];
      DescendOnce(lists, x, i, k);
      DescendUndone(n, live, split, l, i - 1, k);
      WithoutOnly(r);
      NothingHeld(live, r);
      CoalesceOnce(live, split, l, i - 1);
      assert split[i - 1 := []] == lists;
    } else {
      DescendEnd(lists, x, k);
    }
  }

  lemma WithoutOnly(r: nat)
    ensures Without([r], r) == []
  {
  }

  // The two halves of a block.
  lemma HalvesOf(live: set<nat>, x: nat)
    ensures var l, r := 2 * x + 1, 2 * x + 2;
            && Parent(l) == x && Sibling(l) == r && Contains(x, l) && Contains(x, r) && Depth(l) == Depth(x) + 1
  {
    assert Parent(2 * x + 1) == x && Parent(2 * x + 2) == x;
  }

  lemma NothingHeld(live: set<nat>, x: nat)
    requires Clear(live, x) && x > 0
    ensures !Bit(live, x)
  {
    hide Contains;
  }

  // Freeing a block right after allocating it restores every free list, order included.
  lemma AllocFreeIdentity(n: nat, live: set<nat>, lists: Lists, k: nat)
    requires Canonical(n, live, lists) && k <= n && Alloc(lists, k).Some?
    ensures var (after, y) := Alloc(lists, k).value;
            Depth(y) == n - k && Coalesce(live, after, y, k) == lists
  {
    var i := FirstAvail(lists, k);
    var x := lists[i][0];
    TakeStep(n, live, lists, i);
    DescendUndone(n, live, lists[i := lists[i][1..]], x, i, k);
    assert [x] + lists[i][1..] == lists[i];
    if x > 0 {
      SiblingHolds(live, x);
    }
  }

  lemma SiblingHolds(live: set<nat>, x: nat)
    requires x > 0 && Maximal(live, x)
    ensures Holds(live, Sibling(x))
  {
    var l :| l in live && Contains(Parent(x), l);
    assert Contains(Parent(x), x);
    assert l != Parent(x);
    ContainsThroughChild(Parent(x), l);
  }

  // ----- pages

  ghost predicate LivePage(n: nat, live: set<nat>, p: nat) {
    exists l :: l in live && Depth(l) <= n && Covers(n, l, p)
  }

  ghost predicate FreePage(n: nat, lists: Lists, p: nat) {
    exists k, x :: 0 <= k < |lists| && x in lists[k] && Depth(x) <= n && Covers(n, x, p)
  }

  // Blocks that are apart share no page.
  lemma ApartPages(n: nat, x: nat, y: nat)
    requires Depth(x) <= n && Depth(y) <= n && Apart(x, y)
    ensures FirstPage(n, x) + Size(n, x) <= FirstPage(n, y) || FirstPage(n, y) + Size(n, y) <= FirstPage(n, x)
  {
    if Covers(n, x, FirstPage(n, y)) {
      SharedPageNested(n, x, y, FirstPage(n, y));
    } else if Covers(n, y, FirstPage(n, x)) {
      SharedPageNested(n, x, y, FirstPage(n, x));
    }
  }

  lemma LivePageLeaf(n: nat, live: set<nat>, p: nat)
    requires p < Pow2(n) && forall l :: l in live ==> Depth(l) <= n
    ensures LivePage(n, live, p) <==> !Clear(live, IndexOf(n, p, 0))
  {
    var leaf := IndexOf(n, p, 0);
    IndexDepth(n, p, 0);
    forall l | l in live
      ensures Covers(n, l, p) <==> !Apart(leaf, l)
    {
      CoversLeaf(n, l, p);
      if Contains(leaf, l) {
        ContainsDepth(leaf, l);
      }
    }
  }

  lemma FreePageLeaf(n: nat, live: set<nat>, lists: Lists, p: nat)
    requires Canonical(n, live, lists) && p < Pow2(n)
    ensures FreePage(n, lists, p) <==> Clear(live, IndexOf(n, p, 0))
  {
    hide Canonical, Clear, Covers, IndexOf;
    var leaf := IndexOf(n, p, 0);
    if Clear(live, leaf) {
      ClearPageFree(n, live, lists, p);
    }
    if FreePage(n, lists, p) {
      var k, x :| 0 <= k < |lists| && x in lists[k] && Depth(x) <= n && Covers(n, x, p);
      FreePageClear(n, live, lists, p, k, x);
    }
  }

  lemma ListedMaximal(n: nat, live: set<nat>, lists: Lists, k: nat, x: nat)
    requires Canonical(n, live, lists) && k <= n
    ensures |lists| == n + 1 && (x in lists[k] <==> Depth(x) == n - k && Maximal(live, x))
  {
    hide Contains, NoDup, Maximal;
  }

  lemma ClearPageFree(n: nat, live: set<nat>, lists: Lists, p: nat)
    requires Canonical(n, live, lists) && p < Pow2(n) && Clear(live, IndexOf(n, p, 0))
    ensures FreePage(n, lists, p)
  {
    hide *;
    var leaf := IndexOf(n, p, 0);
    IndexDepth(n, p, 0);
    var m := MaximalAbove(live, leaf);
    ListedMaximal(n, live, lists, n - Depth(m), m);
    CoversLeaf(n, m, p);
    MakeFreePage(n, lists, p, n - Depth(m), m);
  }

  lemma MakeFreePage(n: nat, lists: Lists, p: nat, k: nat, x: nat)
    requires k < |lists| && x in lists[k] && Depth(x) <= n && Covers(n, x, p)
    ensures FreePage(n, lists, p)
  {
    hide Covers, Depth;
  }

  lemma FreePageClear(n: nat, live: set<nat>, lists: Lists, p: nat, k: nat, x: nat)
    requires Canonical(n, live, lists) && p < Pow2(n) && k < |lists| && x in lists[k] && Depth(x) <= n &&
             Covers(n, x, p)
    ensures Clear(live, IndexOf(n, p, 0))
  {
    ListCount(n, live, lists);
    ListedMaximal(n, live, lists, k, x);
    hide Contains, FirstPage, Canonical, Clear;
    CoversLeaf(n, x, p);
    ClearDown(live, x, IndexOf(n, p, 0));
  }

  // Every page of the heap is either in a live block or in a listed free block.
  lemma PagesPartitioned(n: nat, live: set<nat>, lists: Lists, p: nat)
    requires Canonical(n, live, lists) && p < Pow2(n)
    ensures LivePage(n, live, p) <==> !FreePage(n, lists, p)
  {
    LivePageLeaf(n, live, p);
    FreePageLeaf(n, live, lists, p);
  }

  // No page is in two live blocks, and none is in two listed blocks.
  lemma PagesInOneBlock(n: nat, live: set<nat>, lists: Lists, x: nat, y: nat, p: nat)
    requires Canonical(n, live, lists) && Depth(x) <= n && Depth(y) <= n
    requires Covers(n, x, p) && Covers(n, y, p)
    ensures x in live && y in live ==> x == y
    ensures x in lists[n - Depth(x)] && y in lists[n - Depth(y)] ==> x == y
  {
    SharedPageNested(n, x, y, p);
    if x in lists[n - Depth(x)] && y in lists[n - Depth(y)] && x != y {
      MaximalApart(live, x, y);
    }
  }

  ghost function LivePages(n: nat, live: set<nat>): set<nat> {
    set p | p in Range(Pow2(n)) && LivePage(n, live, p)
  }

  ghost function FreePages(n: nat, lists: Lists): set<nat> {
    set p | p in Range(Pow2(n)) && FreePage(n, lists, p)
  }

  function Range(m: nat): (s: set<nat>)
    ensures |s| == m && forall p: nat :: p in s <==> p < m
  {
    if m == 0 then {} else Range(m - 1) + {m - 1}
  }

  // Live pages and free pages always add up to the whole heap.
  lemma PagesConserved(n: nat, live: set<nat>, lists: Lists)
    requires Canonical(n, live, lists)
    ensures LivePages(n, live) !! FreePages(n, lists)
    ensures |LivePages(n, live)| + |FreePages(n, lists)| == Pow2(n)
  {
    forall p: nat | p in Range(Pow2(n))
      ensures LivePage(n, live, p) <==> !FreePage(n, lists, p)
    {
      PagesPartitioned(n, live, lists, p);
    }
    assert LivePages(n, live) + FreePages(n, lists) == Range(Pow2(n));
  }

  ghost predicate RegionTouchesLive(n: nat, live: set<nat>, p: nat, size: nat) {
    exists q: nat :: p <= q < p + size && LivePage(n, live, q)
  }

  lemma BlocksShareFirstPage(n: nat, x: nat, l: nat)
    requires Depth(x) <= n && Depth(l) <= n && !Apart(x, l)
    ensures var q := if Contains(x, l) then FirstPage(n, l) else FirstPage(n, x);
            Covers(n, x, q) && Covers(n, l, q)
  {
    if Contains(x, l) {
      ContainedPages(n, x, l);
    } else {
      ContainedPages(n, l, x);
    }
  }

  lemma RegionIsBlock(n: nat, live: set<nat>, x: nat)
    requires Depth(x) <= n && forall l :: l in live ==> Depth(l) <= n
    ensures Clear(live, x) <==> !RegionTouchesLive(n, live, FirstPage(n, x), Size(n, x))
  {
    if !Clear(live, x) {
      var l :| l in live && !Apart(x, l);
      BlocksShareFirstPage(n, x, l);
      assert LivePage(n, live, if Contains(x, l) then FirstPage(n, l) else FirstPage(n, x));
    }
    if q: nat :| Covers(n, x, q) && LivePage(n, live, q) {
      var l :| l in live && Depth(l) <= n && Covers(n, l, q);
      SharedPageNested(n, x, l, q);
    }
  }

  // An allocation of order k fails exactly when every aligned region of 2^k pages touches a live block.
  lemma AllocFailsExactly(n: nat, live: set<nat>, lists: Lists, k: nat)
    requires Canonical(n, live, lists) && k <= n
    ensures Alloc(lists, k) == None <==>
            forall p: nat :: p % Pow2(k) == 0 && p + Pow2(k) <= Pow2(n) ==> RegionTouchesLive(n, live, p, Pow2(k))
  {
    AllocFails(n, live, lists, k);
    forall x | Depth(x) == n - k
      ensures Clear(live, x) <==> !RegionTouchesLive(n, live, FirstPage(n, x), Pow2(k))
      ensures FirstPage(n, x) % Pow2(k) == 0 && FirstPage(n, x) + Pow2(k) <= Pow2(n)
    {
      RegionIsBlock(n, live, x);
      BlockAligned(n, x);
      BlockInside(n, x);
    }
    forall p: nat | p % Pow2(k) == 0 && p + Pow2(k) <= Pow2(n)
      ensures exists x :: Depth(x) == n - k && FirstPage(n, x) == p
    {
      AlignedIsBlock(n, p, k);
    }
  }

  lemma AlignedIsBlock(n: nat, p: nat, k: nat)
    requires k <= n && p % Pow2(k) == 0 && p < Pow2(n)
    ensures Depth(IndexOf(n, p, k)) == n - k && FirstPage(n, IndexOf(n, p, k)) == p
  {
    IndexDepth(n, p, k);
    FirstPageClosed(n, IndexOf(n, p, k));
    DivExact(p, Pow2(k));
  }

  // Different aligned blocks have different bits.
  lemma IndexInjective(n: nat, p: nat, k: nat, q: nat, j: nat)
    requires k <= n && j <= n && p < Pow2(n) && q < Pow2(n) && p % Pow2(k) == 0 && q % Pow2(j) == 0
    requires IndexOf(n, p, k) == IndexOf(n, q, j)
    ensures p == q && k == j
  {
    hide IndexOf, FirstPage;
    AlignedIsBlock(n, p, k);
    AlignedIsBlock(n, q, j);
  }

  // Every bit up to the last leaf's stands for an aligned block inside the heap.
  lemma IndexOnto(n: nat, x: nat)
    requires x <= 2 * Pow2(n) - 2
    ensures Depth(x) <= n && FirstPage(n, x) % Pow2(n - Depth(x)) == 0 &&
            FirstPage(n, x) + Pow2(n - Depth(x)) <= Pow2(n)
    ensures IndexOf(n, FirstPage(n, x), n - Depth(x)) == x
  {
    hide IndexOf, FirstPage;
    DepthRange(x, Depth(x));
    if Depth(x) > n {
      Pow2Monotonic(n + 1, Depth(x));
    }
    BlockAligned(n, x);
    BlockInside(n, x);
    IndexOfFirstPage(n, x);
  }

  // No bit beyond the last leaf's is ever used.
  lemma IndexWithin(n: nat, p: nat, k: nat)
    requires k <= n && p < Pow2(n)
    ensures IndexOf(n, p, k) <= 2 * Pow2(n) - 2
  {
    hide IndexOf;
    IndexDepth(n, p, k);
    DepthRange(IndexOf(n, p, k), n - k);
    Pow2Monotonic(n - k, n);
  }

  // ----- the order of a live block, read off the bitmap

  // Below its own order, the nodes at the start of a live block have clear bits.
  lemma BelowLiveClear(n: nat, live: set<nat>, x: nat, m: nat)
    requires Separate(live) && x in live && Depth(x) <= n && m < n - Depth(x)
    ensures !Bit(live, IndexOf(n, FirstPage(n, x), m))
  {
    var p := FirstPage(n, x);
    var y := IndexOf(n, p, m);
    BlockInside(n, x);
    IndexDepth(n, p, m);
    IndexOfFirstPage(n, x);
    CoversLeafFrom(n, x, p, m);
    if l :| l in live && Contains(y, l) {
      ContainsTransitive(x, y, l);
      ContainsAntisymmetric(x, y);
    }
  }
}
