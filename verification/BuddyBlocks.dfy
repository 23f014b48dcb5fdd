// The pages a tree node stands for, in a heap of Pow2(n) pages.
module BuddyBlocks {
  import opened Powers
  import opened BuddyTree

  // The node of order k that covers page p.
  function IndexOf(n: nat, p: nat, k: nat): (x: nat)
    requires k <= n
  {
    Pow2(n - k) - 1 + Div(p, Pow2(k))
  }

  // The first page of node x; the right half of a block starts half its size further on.
  function FirstPage(n: nat, x: nat): nat
    requires Depth(x) <= n
  {
    if x == 0 then 0
    else if x % 2 == 1 then FirstPage(n, Parent(x))
    else FirstPage(n, Parent(x)) + Pow2(n - Depth(x))
  }

  function Size(n: nat, x: nat): nat
    requires Depth(x) <= n
  {
    Pow2(n - Depth(x))
  }

  predicate Covers(n: nat, x: nat, p: nat)
    requires Depth(x) <= n
  {
    FirstPage(n, x) <= p < FirstPage(n, x) + Size(n, x)
  }

  // Level d of the tree is the range of 2^d indices that starts at 2^d - 1.
  lemma {:induction false} DepthRange(x: nat, d: nat)
    ensures Depth(x) == d <==> Pow2(d) <= x + 1 < 2 * Pow2(d)
    decreases d
  {
    if x > 0 && d > 0 {
      DepthRange(Parent(x), d - 1);
    } else if x == 0 && d > 0 {
      Pow2Monotonic(1, d);
    }
  }

  // The position of a node in its level.
  function Column(x: nat): (c: nat)
    ensures c + Pow2(Depth(x)) == x + 1
  {
    if x == 0 then 0 else 2 * Column(Parent(x)) + (if x % 2 == 1 then 0 else 1)
  }

  lemma ScaleHalf(q: int, h: int)
    ensures q * (2 * h) == (2 * q) * h
    ensures (2 * q + 1) * h == (2 * q) * h + h
  {
  }

  lemma {:induction false} FirstPageClosed(n: nat, x: nat)
    requires Depth(x) <= n
    ensures FirstPage(n, x) == Column(x) * Size(n, x)
  {
    if x > 0 {
      FirstPageClosed(n, Parent(x));
      ScaleHalf(Column(Parent(x)), Size(n, x));
    }
  }

  // A node covers a page exactly when it is the node of its order that the index formula names.
  lemma CoversIndex(n: nat, x: nat, p: nat)
    requires Depth(x) <= n
    ensures Covers(n, x, p) <==> x == IndexOf(n, p, n - Depth(x))
  {
    FirstPageClosed(n, x);
    DivUnique(p, Size(n, x), Column(x));
  }

  lemma IndexDepth(n: nat, p: nat, k: nat)
    requires k <= n && p < Pow2(n)
    ensures Depth(IndexOf(n, p, k)) == n - k
  {
    Pow2Add(n - k, k);
    DivBelow(p, Pow2(k), Pow2(n - k));
    DepthRange(IndexOf(n, p, k), n - k);
  }

  // The index map is one-to-one from aligned blocks, and onto the tree.
  lemma IndexOfFirstPage(n: nat, x: nat)
    requires Depth(x) <= n
    ensures IndexOf(n, FirstPage(n, x), n - Depth(x)) == x
  {
    CoversIndex(n, x, FirstPage(n, x));
  }

  // A block starts at a multiple of its own size.
  lemma BlockAligned(n: nat, x: nat)
    requires Depth(x) <= n
    ensures FirstPage(n, x) % Size(n, x) == 0
  {
    FirstPageClosed(n, x);
    MultipleModulo(Column(x), Size(n, x));
  }

  // A block ends inside the heap.
  lemma BlockInside(n: nat, x: nat)
    requires Depth(x) <= n
    ensures FirstPage(n, x) + Size(n, x) <= Pow2(n)
  {
    RootContains(x);
    ContainedPages(n, 0, x);
  }

  lemma IndexParent(n: nat, p: nat, k: nat)
    requires k < n && p < Pow2(n)
    ensures IndexOf(n, p, k) > 0
    ensures Parent(IndexOf(n, p, k)) == IndexOf(n, p, k + 1)
  {
    DivTwice(p, Pow2(k));
  }

  // Containment of nodes is coverage of leaves.
  lemma {:induction false} CoversLeaf(n: nat, x: nat, p: nat)
    requires Depth(x) <= n && p < Pow2(n)
    ensures Covers(n, x, p) <==> Contains(x, IndexOf(n, p, 0))
  {
    CoversIndex(n, x, p);
    CoversLeafFrom(n, x, p, 0);
  }

  lemma {:induction false} CoversLeafFrom(n: nat, x: nat, p: nat, k: nat)
    requires Depth(x) <= n && p < Pow2(n) && k <= n - Depth(x)
    ensures Contains(x, IndexOf(n, p, k)) <==> x == IndexOf(n, p, n - Depth(x))
    decreases n - Depth(x) - k
  {
    IndexDepth(n, p, k);
    if k < n - Depth(x) {
      IndexParent(n, p, k);
      CoversLeafFrom(n, x, p, k + 1);
    } else if Contains(x, IndexOf(n, p, k)) {
      ContainsDepth(x, IndexOf(n, p, k));
    }
  }

  lemma SharedPageNested(n: nat, x: nat, y: nat, p: nat)
    requires Depth(x) <= n && Depth(y) <= n && Covers(n, x, p) && Covers(n, y, p)
    ensures Contains(x, y) || Contains(y, x)
  {
    BlockInside(n, x);
    CoversLeaf(n, x, p);
    CoversLeaf(n, y, p);
    ContainsNested(x, y, IndexOf(n, p, 0));
  }

  lemma {:induction false} ContainedPages(n: nat, x: nat, y: nat)
    requires Depth(y) <= n && Contains(x, y)
    ensures Depth(x) <= n
    ensures FirstPage(n, x) <= FirstPage(n, y)
    ensures FirstPage(n, y) + Size(n, y) <= FirstPage(n, x) + Size(n, x)
    decreases y
  {
    if x != y {
      ContainedPages(n, x, Parent(y));
    }
  }
}
