// How the free lists of block numbers sit in memory: addresses of blocks, and why their link words
// never collide with each other or with live blocks.
module BuddyMemory {
  import opened Powers
  import opened BuddyTree
  import opened BuddySteps
  import opened BuddyBlocks
  import opened Sequences
  import opened BuddySpec
  import opened BuddyTheorems
  import opened FreeLists
  import opened Memory64

  function Address(n: nat, start: nat, x: nat): nat {
    if Depth(x) <= n then start + 4096 * FirstPage(n, x) else start
  }

  function Addresses(n: nat, start: nat, l: seq<nat>): (r: seq<nat>)
    ensures |r| == |l| && forall i :: 0 <= i < |l| ==> r[i] == Address(n, start, l[i])
  {
    seq(|l|, i requires 0 <= i < |l| => Address(n, start, l[i]))
  }

  // The heap fits in memory, and memory in 64 bits.
  ghost predicate Placed(n: nat, start: nat, size: nat) {
    0 < start && start + 4096 * Pow2(n) <= size < TWO_TO_64
  }

  ghost predicate Strand(n: nat, start: nat, m: seq<byte>, heads: seq<nat>, lists: Lists, k: nat)
    requires k < |lists| == |heads|
  {
    Chain(m, heads[k], Addresses(n, start, lists[k]))
  }

  // Every free list is threaded through the first words of its blocks.
  ghost predicate Threaded(n: nat, start: nat, m: seq<byte>, heads: seq<nat>, lists: Lists) {
    |heads| == |lists| && forall k :: 0 <= k < |lists| ==> Strand(n, start, m, heads, lists, k)
  }

  // A byte outside the heap or inside a live block.
  ghost predicate Owned(n: nat, start: nat, live: set<nat>, a: int) {
    a < start || start + 4096 * Pow2(n) <= a || LivePage(n, live, (a - start) / 4096)
  }

  // Every byte that is outside the heap or inside a live block keeps its value.
  ghost predicate Kept(n: nat, start: nat, m: seq<byte>, t: seq<byte>, live: set<nat>) {
    |m| == |t| && forall a :: 0 <= a < |m| && Owned(n, start, live, a) ==> m[a] == t[a]
  }

  lemma AddressInside(n: nat, start: nat, x: nat, size: nat)
    requires Depth(x) <= n && Placed(n, start, size)
    ensures start <= Address(n, start, x) && Address(n, start, x) + 4096 <= start + 4096 * Pow2(n)
  {
    BlockInside(n, x);
  }

  lemma SizeIs(n: nat, x: nat)
    requires Depth(x) <= n
    ensures Size(n, x) == Pow2(n - Depth(x))
  {
  }

  // A block of order k starts at a multiple of its size, counted from the start of the heap.
  lemma AddressAligned(n: nat, start: nat, x: nat, k: nat) returns (q: nat)
    requires k <= n && Depth(x) == n - k
    ensures Address(n, start, x) == start + q * (4096 * Pow2(k))
    ensures Address(n, start, x) + 4096 * Pow2(k) <= start + 4096 * Pow2(n)
  {
    BlockInside(n, x);
    SizeIs(n, x);
    hide *;
    q := AlignedPage(n, x, k);
    AddressIs(n, start, x);
    MoveFactor(q, Pow2(k));
  }

  lemma AddressIs(n: nat, start: nat, x: nat)
    requires Depth(x) <= n
    ensures Address(n, start, x) == start + 4096 * FirstPage(n, x)
  {
  }

  lemma MoveFactor(q: nat, m: nat)
    ensures 4096 * (q * m) == q * (4096 * m)
  {
  }

  lemma AlignedPage(n: nat, x: nat, k: nat) returns (q: nat)
    requires k <= n && Depth(x) == n - k
    ensures FirstPage(n, x) == q * Pow2(k)
  {
    BlockAligned(n, x);
    DivExact(FirstPage(n, x), Pow2(k));
    q := Div(FirstPage(n, x), Pow2(k));
  }

  lemma ApartAddresses(n: nat, start: nat, x: nat, y: nat)
    requires Depth(x) <= n && Depth(y) <= n && Apart(x, y)
    ensures Address(n, start, x) + 4096 <= Address(n, start, y) || Address(n, start, y) + 4096 <= Address(n, start, x)
  {
    ApartPages(n, x, y);
  }

  // A block that overlaps no block of the list has its first word to itself.
  lemma ApartFits(n: nat, start: nat, c: nat, l: seq<nat>, size: nat)
    requires Depth(c) <= n && Placed(n, start, size)
    requires forall y :: y in l ==> Depth(y) <= n && Apart(c, y)
    ensures Fits(Address(n, start, c), Addresses(n, start, l), size)
  {
    AddressInside(n, start, c, size);
    forall j | 0 <= j < |l|
      ensures Address(n, start, l[j]) + 8 <= Address(n, start, c) || Address(n, start, c) + 8 <= Address(n, start, l[j])
    {
      assert l[j] in l;
      ApartAddresses(n, start, c, l[j]);
    }
  }

  // Byte a lies in block x.
  predicate InBlock(n: nat, start: nat, x: nat, a: int)
    requires Depth(x) <= n
  {
    Address(n, start, x) <= a < Address(n, start, x) + 4096 * Size(n, x)
  }

  // The bytes of a block that overlaps no live block are not owned.
  lemma ClearNotOwned(n: nat, start: nat, live: set<nat>, x: nat, a: int)
    requires Depth(x) <= n && Clear(live, x) && InBlock(n, start, x, a)
    ensures !Owned(n, start, live, a)
  {
    BlockInside(n, x);
    var p := (a - start) / 4096;
    assert Covers(n, x, p);
    if l :| l in live && Depth(l) <= n && Covers(n, l, p) {
      SharedPageNested(n, x, l, p);
    }
  }

  // The bytes of a live block are owned.
  lemma LiveOwned(n: nat, start: nat, live: set<nat>, x: nat, a: int)
    requires Depth(x) <= n && x in live && InBlock(n, start, x, a)
    ensures Owned(n, start, live, a)
  {
    assert Covers(n, x, (a - start) / 4096);
  }

  // Blocks that are apart share no byte.
  lemma ApartBytes(n: nat, start: nat, x: nat, y: nat)
    requires Depth(x) <= n && Depth(y) <= n && Apart(x, y)
    ensures Address(n, start, x) + 4096 * Size(n, x) <= Address(n, start, y)
         || Address(n, start, y) + 4096 * Size(n, y) <= Address(n, start, x)
  {
    ApartPages(n, x, y);
  }

  lemma AddressInjective(n: nat, start: nat, x: nat, y: nat)
    requires Depth(x) == Depth(y) <= n && Address(n, start, x) == Address(n, start, y)
    ensures x == y
  {
    IndexOfFirstPage(n, x);
    IndexOfFirstPage(n, y);
  }

  lemma {:induction false} AddressesWithout(n: nat, start: nat, l: seq<nat>, s: nat)
    requires Depth(s) <= n && forall y :: y in l ==> Depth(y) == Depth(s)
    ensures Addresses(n, start, Without(l, s)) == Without(Addresses(n, start, l), Address(n, start, s))
  {
    hide Address, Depth;
    if l != [] {
      var a := Addresses(n, start, l);
      assert a[1..] == Addresses(n, start, l[1..]);
      if l[0] != s && Address(n, start, l[0]) == Address(n, start, s) {
        AddressInjective(n, start, l[0], s);
      }
      AddressesWithout(n, start, l[1..], s);
      if l[0] != s {
        assert Addresses(n, start, [l[0]] + Without(l[1..], s)) == [a[0]] + Addresses(n, start, Without(l[1..], s));
      }
    }
  }

  ghost predicate OverlapsNone(n: nat, lists: Lists, c: nat) {
    forall i, y :: 0 <= i < |lists| && y in lists[i] ==> Depth(y) <= n && Apart(c, y)
  }

  lemma MakeOverlapsNone(n: nat, lists: Lists, c: nat)
    requires forall i, y :: 0 <= i < |lists| && y in lists[i] ==> Depth(y) <= n && Apart(c, y)
    ensures OverlapsNone(n, lists, c)
  {
  }

  lemma ApartSymmetric(x: nat, y: nat)
    requires Apart(x, y)
    ensures Apart(y, x)
  {
  }

  // Pushing block c, which overlaps no listed block, on list k.
  lemma ThreadedPush(n: nat, start: nat, m: seq<byte>, t: seq<byte>, heads: seq<nat>, lists: Lists, k: nat, c: nat)
    requires Threaded(n, start, m, heads, lists) && k < |lists| && Depth(c) <= n && Placed(n, start, |m|)
    requires OverlapsNone(n, lists, c)
    requires Address(n, start, c) + 8 <= |t| && SameOutside(m, t, Address(n, start, c), Address(n, start, c) + 8)
    requires Word(t, Address(n, start, c)) == heads[k]
    ensures Threaded(n, start, t, heads[k := Address(n, start, c)], lists[k := [c] + lists[k]])
  {
    var a := Address(n, start, c);
    var after, pushed := heads[k := a], lists[k := [c] + lists[k]];
    hide Chain, Contains, FirstPage, Le;
    forall i | 0 <= i < |lists|
      ensures Strand(n, start, t, after, pushed, i)
    {
      assert Strand(n, start, m, heads, lists, i);
      ApartFits(n, start, c, lists[i], |m|);
      if i == k {
        ChainPush(m, t, heads[i], Addresses(n, start, lists[i]), a);
        assert Addresses(n, start, [c] + lists[i]) == [a] + Addresses(n, start, lists[i]);
      } else {
        ChainKept(m, t, heads[i], Addresses(n, start, lists[i]), a);
      }
    }
  }

  ghost predicate OneLinkChanged(n: nat, start: nat, m: seq<byte>, t: seq<byte>, l: seq<nat>) {
    exists p :: p in l && SameOutside(m, t, Address(n, start, p), Address(n, start, p) + 8)
  }

  // The list of order k loses one block; the link word of at most one of its blocks is rewritten.
  lemma ThreadedWithout(n: nat, start: nat, live: set<nat>, m: seq<byte>, t: seq<byte>, heads: seq<nat>,
                        after: seq<nat>, lists: Lists, k: nat, s: nat)
    requires Canonical(n, live, lists) && Threaded(n, start, m, heads, lists) && k <= n && Placed(n, start, |m|)
    requires Depth(s) == n - k && |after| == |heads| && after == heads[k := after[k]]
    requires Chain(t, after[k], Without(Addresses(n, start, lists[k]), Address(n, start, s)))
    requires m == t || OneLinkChanged(n, start, m, t, lists[k])
    ensures Threaded(n, start, t, after, lists[k := Without(lists[k], s)])
  {
    assert forall y :: y in lists[k] ==> Depth(y) == Depth(s);
    AddressesWithout(n, start, lists[k], s);
    var without := lists[k := Without(lists[k], s)];
    forall i | 0 <= i < |lists|
      ensures Strand(n, start, t, after, without, i)
    {
      assert Strand(n, start, m, heads, lists, i);
      if i != k {
        OtherStrandKept(n, start, live, m, t, heads, lists, k, i);
      }
    }
  }

  // A changed link word on list k belongs to no block of another list.
  lemma OtherStrandKept(n: nat, start: nat, live: set<nat>, m: seq<byte>, t: seq<byte>, heads: seq<nat>,
                        lists: Lists, k: nat, i: nat)
    requires Canonical(n, live, lists) && k <= n && i <= n && i != k && Placed(n, start, |m|)
    requires |heads| == |lists| && Chain(m, heads[i], Addresses(n, start, lists[i]))
    requires m == t || OneLinkChanged(n, start, m, t, lists[k])
    ensures Chain(t, heads[i], Addresses(n, start, lists[i]))
  {
    if m != t {
      var p :| p in lists[k] && SameOutside(m, t, Address(n, start, p), Address(n, start, p) + 8);
      forall y | y in lists[i]
        ensures Depth(y) <= n && Apart(p, y)
      {
        MaximalApart(live, p, y);
      }
      ApartFits(n, start, p, lists[i], |m|);
      ChainKept(m, t, heads[i], Addresses(n, start, lists[i]), Address(n, start, p));
    }
  }

  // The head of list k is the address of its first block.
  lemma FirstLink(n: nat, start: nat, m: seq<byte>, heads: seq<nat>, lists: Lists, k: nat)
    requires k < |lists| == |heads| && Strand(n, start, m, heads, lists, k)
    ensures heads[k] == if lists[k] == [] then 0 else Address(n, start, lists[k][0])
  {
  }

  lemma HeadNonzero(n: nat, start: nat, m: seq<byte>, heads: seq<nat>, lists: Lists, k: nat)
    requires Threaded(n, start, m, heads, lists) && k < |lists|
    ensures heads[k] != 0 <==> lists[k] != []
  {
    assert Strand(n, start, m, heads, lists, k);
  }

  // Writing the link word of a free block leaves every owned byte alone.
  lemma LinkWriteKept(n: nat, start: nat, m: seq<byte>, t: seq<byte>, live: set<nat>, x: nat)
    requires Depth(x) <= n && Clear(live, x)
    requires SameOutside(m, t, Address(n, start, x), Address(n, start, x) + 8)
    ensures Kept(n, start, m, t, live)
  {
    forall a | 0 <= a < |m| && Owned(n, start, live, a)
      ensures m[a] == t[a]
    {
      if Address(n, start, x) <= a < Address(n, start, x) + 8 {
        ClearNotOwned(n, start, live, x, a);
      }
    }
  }

  lemma LinkChangeKept(n: nat, start: nat, m: seq<byte>, t: seq<byte>, live: set<nat>, lists: Lists, k: nat)
    requires Canonical(n, live, lists) && k <= n
    requires m == t || OneLinkChanged(n, start, m, t, lists[k])
    ensures Kept(n, start, m, t, live)
  {
    if m != t {
      var p :| p in lists[k] && SameOutside(m, t, Address(n, start, p), Address(n, start, p) + 8);
      LinkWriteKept(n, start, m, t, live, p);
    }
  }

  // What is kept for more live blocks is kept for fewer.
  lemma KeptFewer(n: nat, start: nat, m: seq<byte>, t: seq<byte>, more: set<nat>, fewer: set<nat>)
    requires Kept(n, start, m, t, more)
    requires forall p :: LivePage(n, fewer, p) ==> LivePage(n, more, p)
    ensures Kept(n, start, m, t, fewer)
  {
    assert forall a: int :: Owned(n, start, fewer, a) ==> Owned(n, start, more, a);
  }

  lemma ChildPages(n: nat, live: set<nat>, x: nat, c: nat)
    requires Depth(c) <= n && Contains(x, c)
    ensures forall p :: LivePage(n, live + {c}, p) ==> LivePage(n, live + {x}, p)
  {
    ContainedPages(n, x, c);
    forall p | LivePage(n, live + {c}, p)
      ensures LivePage(n, live + {x}, p)
    {
      var l :| l in live + {c} && Depth(l) <= n && Covers(n, l, p);
      var w := if l == c then x else l;
      assert w in live + {x} && Covers(n, w, p);
    }
  }

  lemma KeptSelf(n: nat, start: nat, m: seq<byte>, live: set<nat>)
    ensures Kept(n, start, m, m, live)
  {
  }

  // Keeping only the left half of x owned.
  lemma LeftHalfPages(n: nat, start: nat, m: seq<byte>, t: seq<byte>, live: set<nat>, x: nat)
    requires Depth(2 * x + 1) <= n && Kept(n, start, m, t, live + {x})
    ensures Kept(n, start, m, t, live + {2 * x + 1})
  {
    hide Kept, Contains, LivePage;
    assert Parent(2 * x + 1) == x;
    ParentContains(2 * x + 1);
    ChildPages(n, live, x, 2 * x + 1);
    KeptFewer(n, start, m, t, live + {x}, live + {2 * x + 1});
  }

  lemma HalvesPages(n: nat, p: nat)
    requires Depth(p) < n
    ensures Depth(2 * p + 1) == Depth(p) + 1 && Depth(2 * p + 2) == Depth(p) + 1
    ensures FirstPage(n, 2 * p + 1) == FirstPage(n, p)
    ensures FirstPage(n, 2 * p + 2) == FirstPage(n, p) + Pow2(n - Depth(p) - 1)
  {
    assert Parent(2 * p + 1) == p && Parent(2 * p + 2) == p;
  }

  lemma SiblingAddresses(n: nat, start: nat, c: nat)
    requires 0 < c && Depth(c) <= n
    ensures Depth(Sibling(c)) == Depth(c) == Depth(Parent(c)) + 1
    ensures c % 2 == 1 ==>
              && Address(n, start, Sibling(c)) == Address(n, start, c) + 4096 * Pow2(n - Depth(c))
              && Address(n, start, Parent(c)) == Address(n, start, c)
    ensures c % 2 == 0 ==>
              && Address(n, start, Sibling(c)) == Address(n, start, c) - 4096 * Pow2(n - Depth(c))
              && Address(n, start, Parent(c)) == Address(n, start, Sibling(c))
  {
    var p := Parent(c);
    assert c == 2 * p + 1 || c == 2 * p + 2;
    HalvesPages(n, p);
  }

  // Right after initialisation the one free block is threaded exactly when its link word is zero.
  lemma InitThreaded(n: nat, start: nat, m: seq<byte>, heads: seq<nat>)
    requires Placed(n, start, |m|) && |heads| == n + 1
    requires heads[n] == start && forall k :: 0 <= k < n ==> heads[k] == 0
    ensures Threaded(n, start, m, heads, InitLists(n)) <==> Word(m, start) == 0
  {
    var ls := InitLists(n);
    assert Addresses(n, start, [0]) == [start];
    assert Chain(m, start, [start]) <==> Word(m, start) == 0 by {
      assert [start][0] == start;
    }
    assert Strand(n, start, m, heads, ls, n) <==> Chain(m, start, [start]);
    forall k | 0 <= k < n
      ensures Strand(n, start, m, heads, ls, k)
    {
      assert Addresses(n, start, []) == [];
    }
  }

  // The list heads are a function of the lists.
  lemma HeadsUnique(n: nat, start: nat, m: seq<byte>, heads: seq<nat>, t: seq<byte>, others: seq<nat>, lists: Lists)
    requires Threaded(n, start, m, heads, lists) && Threaded(n, start, t, others, lists)
    ensures heads == others
  {
    forall k | 0 <= k < |lists|
      ensures heads[k] == others[k]
    {
      assert Strand(n, start, m, heads, lists, k) && Strand(n, start, t, others, lists, k);
    }
  }

  // Whoever owns a live block may write anything in it: the free lists do not notice.
  lemma OwnedWritesHarmless(n: nat, start: nat, live: set<nat>, lists: Lists, m: seq<byte>, t: seq<byte>,
                            heads: seq<nat>)
    requires Canonical(n, live, lists) && Threaded(n, start, m, heads, lists) && Placed(n, start, |m|)
    requires OwnedOnly(n, start, m, t, live)
    ensures Threaded(n, start, t, heads, lists)
  {
    forall k | 0 <= k < |lists|
      ensures Strand(n, start, t, heads, lists, k)
    {
      assert Strand(n, start, m, heads, lists, k);
      forall j | 0 <= j < |lists[k]|
        ensures Word(t, Address(n, start, lists[k][j])) == Word(m, Address(n, start, lists[k][j]))
      {
        var x := lists[k][j];
        assert x in lists[k];
        AddressInside(n, start, x, |m|);
        forall a | Address(n, start, x) <= a < Address(n, start, x) + 8
          ensures m[a] == t[a]
        {
          ClearNotOwned(n, start, live, x, a);
        }
        LeKept(m, t, Address(n, start, x), 8);
      }
    }
  }

  lemma KeptSubset(n: nat, start: nat, m: seq<byte>, t: seq<byte>, more: set<nat>, fewer: set<nat>)
    requires Kept(n, start, m, t, more) && fewer <= more
    ensures Kept(n, start, m, t, fewer)
  {
    KeptFewer(n, start, m, t, more, fewer);
  }

  lemma KeptThen(n: nat, start: nat, m: seq<byte>, u: seq<byte>, t: seq<byte>, live: set<nat>)
    requires Kept(n, start, m, u, live) && Kept(n, start, u, t, live)
    ensures Kept(n, start, m, t, live)
  {
  }

  // Only bytes outside the heap or in live blocks differ.
  ghost predicate OwnedOnly(n: nat, start: nat, m: seq<byte>, t: seq<byte>, live: set<nat>) {
    |m| == |t| && forall a :: 0 <= a < |m| && m[a] != t[a] ==> Owned(n, start, live, a)
  }

  lemma OwnedOnlyThen(n: nat, start: nat, m: seq<byte>, u: seq<byte>, t: seq<byte>, live: set<nat>)
    requires OwnedOnly(n, start, m, u, live) && OwnedOnly(n, start, u, t, live)
    ensures OwnedOnly(n, start, m, t, live)
  {
  }
}
