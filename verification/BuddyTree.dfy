// The complete binary tree of blocks. A node is named by its index in level order: the root is 0 and
// the children of x are 2x+1 and 2x+2.
module BuddyTree {

  function Parent(x: nat): nat
    requires x > 0
  {
    (x - 1) / 2
  }

  // The other child of the same parent.
  function Sibling(x: nat): nat
    requires x > 0
  {
    if x % 2 == 1 then x + 1 else x - 1
  }

  function Depth(x: nat): nat {
    if x == 0 then 0 else 1 + Depth(Parent(x))
  }

  // x is y or one of its ancestors: the block x contains the block y.
  predicate Contains(x: nat, y: nat)
    decreases y
  {
    x == y || (y > 0 && Contains(x, Parent(y)))
  }

  lemma ContainsSelf(x: nat)
    ensures Contains(x, x)
  {
  }

  lemma RootDepth(x: nat)
    ensures Depth(x) == 0 <==> x == 0
  {
  }

  lemma ParentContains(x: nat)
    requires x > 0
    ensures Contains(Parent(x), x)
  {
  }

  lemma ContainsAbove(x: nat, y: nat)
    requires Contains(x, y) && x != y
    ensures y > 0 && Contains(x, Parent(y))
  {
  }

  lemma {:induction false} ContainsDepth(x: nat, y: nat)
    requires Contains(x, y)
    ensures x == y || Depth(x) < Depth(y)
  {
    if x != y {
      ContainsDepth(x, Parent(y));
    }
  }

  lemma {:induction false} ContainsTransitive(x: nat, y: nat, z: nat)
    requires Contains(x, y) && Contains(y, z)
    ensures Contains(x, z)
    decreases z
  {
    if y != z {
      ContainsTransitive(x, y, Parent(z));
    }
  }

  // Two blocks that share a block are nested.
  lemma {:induction false} ContainsNested(x: nat, y: nat, z: nat)
    requires Contains(x, z) && Contains(y, z)
    ensures Contains(x, y) || Contains(y, x)
    decreases z
  {
    if x != z && y != z {
      ContainsNested(x, y, Parent(z));
    }
  }

  lemma {:induction false} RootContains(y: nat)
    ensures Contains(0, y)
  {
    if y > 0 {
      RootContains(Parent(y));
    }
  }

  // What a node strictly contains lies in one of its two children.
  lemma {:induction false} ContainsThroughChild(x: nat, y: nat)
    requires Contains(x, y) && x != y
    ensures Contains(2 * x + 1, y) || Contains(2 * x + 2, y)
    decreases y
  {
    if Parent(y) != x {
      ContainsThroughChild(x, Parent(y));
    }
  }

  lemma ContainsAntisymmetric(x: nat, y: nat)
    requires Contains(x, y) && Contains(y, x)
    ensures x == y
  {
    if x != y {
      ContainsDepth(x, y);
      ContainsDepth(y, x);
    }
  }

  lemma SiblingsApart(c: nat)
    requires c > 0
    ensures Sibling(c) > 0 && Parent(Sibling(c)) == Parent(c) && Sibling(Sibling(c)) == c
    ensures Depth(Sibling(c)) == Depth(c)
    ensures !Contains(c, Sibling(c)) && !Contains(Sibling(c), c)
  {
    if Contains(c, Sibling(c)) {
      ContainsDepth(c, Sibling(c));
    }
    if Contains(Sibling(c), c) {
      ContainsDepth(Sibling(c), c);
    }
  }
}
