// What the bitmap and the free lists have to say for a given set of live blocks, and how that
// changes when one block is taken, split, merged or released.
module BuddySteps {
  import opened BuddyTree

  predicate Apart(x: nat, y: nat) {
    !Contains(x, y) && !Contains(y, x)
  }

  // Live blocks never overlap.
  ghost predicate Separate(live: set<nat>) {
    forall x, y :: x in live && y in live && x != y ==> Apart(x, y)
  }

  // Block x contains a live block (possibly x itself).
  ghost predicate Holds(live: set<nat>, x: nat) {
    exists l :: l in live && Contains(x, l)
  }

  // Block x overlaps no live block.
  ghost predicate Clear(live: set<nat>, x: nat) {
    forall l :: l in live ==> Apart(x, l)
  }

  // Block x is free and is not part of a bigger free block.
  ghost predicate Maximal(live: set<nat>, x: nat) {
    Clear(live, x) && (x == 0 || Holds(live, Parent(x)))
  }

  // The bitmap bit of node x.
  ghost predicate Bit(live: set<nat>, x: nat) {
    x == 0 || Holds(live, x)
  }

  lemma HoldsUp(live: set<nat>, z: nat, x: nat)
    requires Contains(z, x) && Holds(live, x)
    ensures Holds(live, z)
  {
    var l :| l in live && Contains(x, l);
    ContainsTransitive(z, x, l);
  }

  lemma ClearDown(live: set<nat>, x: nat, z: nat)
    requires Clear(live, x) && Contains(x, z)
    ensures Clear(live, z)
  {
    forall l | l in live
      ensures Apart(z, l)
    {
      if Contains(z, l) {
        ContainsTransitive(x, z, l);
      }
      if Contains(l, z) {
        ContainsNested(l, x, z);
      }
    }
  }

  // Two different maximal free blocks never overlap.
  lemma MaximalApart(live: set<nat>, x: nat, z: nat)
    requires Maximal(live, x) && Maximal(live, z) && x != z
    ensures Apart(x, z)
  {
    if Contains(z, x) {
      HoldsUp(live, z, Parent(x));
    }
    if Contains(x, z) {
      HoldsUp(live, x, Parent(z));
    }
  }

  // The effect of one more live block on the two basic predicates.
  lemma AddBlock(live: set<nat>, x: nat)
    ensures forall z :: Holds(live + {x}, z) <==> Holds(live, z) || Contains(z, x)
    ensures forall z :: Clear(live + {x}, z) <==> Clear(live, z) && Apart(z, x)
  {
    var more := live + {x};
    forall z
      ensures Holds(more, z) <==> Holds(live, z) || Contains(z, x)
      ensures Clear(more, z) <==> Clear(live, z) && Apart(z, x)
    {
      assert x in more;
      if Holds(live, z) {
        var l :| l in live && Contains(z, l);
        assert l in more;
      }
      if Clear(more, z) {
        assert forall l :: l in live ==> l in more;
      }
    }
  }

  // Taking a maximal free block x off its list: no other list entry changes, and one bit is set.
  lemma Take(live: set<nat>, x: nat)
    requires Separate(live) && Maximal(live, x)
    ensures x !in live && Separate(live + {x})
    ensures forall z :: Maximal(live + {x}, z) <==> Maximal(live, z) && z != x
    ensures forall z :: Bit(live + {x}, z) <==> Bit(live, z) || z == x
  {
    hide Contains;
    AddBlock(live, x);
    ContainsSelf(x);
    forall z | Contains(z, x) && z != x
      ensures Holds(live, z)
    {
      ContainsAbove(z, x);
      HoldsUp(live, z, Parent(x));
    }
    forall z | Maximal(live, z) && z != x
      ensures Apart(z, x)
    {
      MaximalApart(live, x, z);
    }
    forall z: nat | z > 0
      ensures Contains(Parent(z), z)
    {
      ParentContains(z);
    }
  }

  lemma ApartFromChild(z: nat, c: nat)
    requires c > 0
    ensures Apart(z, Parent(c)) ==> Apart(z, c)
    ensures Apart(z, c) && !Apart(z, Parent(c)) ==> Contains(Sibling(c), z)
  {
    if Contains(c, z) {
      ContainsTransitive(Parent(c), c, z);
    } else if Contains(Parent(c), z) && z != Parent(c) {
      ContainsThroughChild(Parent(c), z);
    }
  }

  // Replacing the live block Parent(c) by its child c: the sibling becomes a maximal free block, no
  // other list entry changes, and one bit is set.
  lemma Child(live: set<nat>, c: nat)
    requires c > 0 && Parent(c) !in live && Separate(live + {Parent(c)})
    ensures c !in live && Separate(live + {c})
    ensures forall z :: Maximal(live + {c}, z) <==> Maximal(live + {Parent(c)}, z) || z == Sibling(c)
    ensures !Maximal(live + {Parent(c)}, Sibling(c))
    ensures forall z :: Bit(live + {c}, z) <==> Bit(live + {Parent(c)}, z) || z == c
    ensures !Bit(live + {Parent(c)}, c)
  {
    hide Contains, Depth;
    var p, s := Parent(c), Sibling(c);
    AddBlock(live, c);
    AddBlock(live, p);
    SiblingsApart(c);
    ContainsSelf(c);
    ContainsSelf(p);
    ParentContains(c);
    ParentContains(s);
    assert p in live + {p};
    assert forall l :: l in live ==> l in live + {p};
    assert Clear(live, p);
    ClearDown(live, p, c);
    ClearDown(live, p, s);
    if Contains(c, p) {
      ContainsAntisymmetric(c, p);
    }
    forall z
      ensures Apart(z, p) ==> Apart(z, c)
    {
      ApartFromChild(z, c);
    }
    forall z | Contains(z, c) && z != c
      ensures Contains(z, p)
    {
      ContainsAbove(z, c);
    }
    forall z | Contains(z, p)
      ensures Contains(z, c)
    {
      ContainsTransitive(z, p, c);
    }
    forall z | Maximal(live + {c}, z) && !Maximal(live + {p}, z)
      ensures z == s
    {
      ApartFromChild(z, c);
      if z > 0 {
        ParentContains(z);
      }
      if z != s {
        BelowSibling(live, c, z);
      }
    }
  }

  // A block strictly inside the sibling of c is no maximal one, nor is its parent's bit set.
  lemma BelowSibling(live: set<nat>, c: nat, z: nat)
    requires c > 0 && Clear(live, Sibling(c)) && Contains(Sibling(c), z) && z != Sibling(c)
    ensures z > 0 && Contains(Sibling(c), Parent(z)) && Clear(live, Parent(z)) && !Contains(Parent(z), c)
  {
    hide Contains;
    ContainsAbove(Sibling(c), z);
    ClearDown(live, Sibling(c), Parent(z));
    SiblingsApart(c);
    if Contains(Parent(z), c) {
      ContainsTransitive(Sibling(c), Parent(z), c);
    }
  }

  // The converse of Child's premise, which the merge loop relies on: when the bit of the sibling of
  // a block under release is clear, the whole sibling is a maximal free block and the two can be joined.
  lemma ClearBitMeansFree(live: set<nat>, c: nat)
    requires c > 0 && c !in live && Separate(live + {c})
    requires !Bit(live + {c}, Sibling(c))
    ensures Maximal(live + {c}, Sibling(c))
    ensures Parent(c) !in live && Separate(live + {Parent(c)})
  {
    var p, s := Parent(c), Sibling(c);
    AddBlock(live, c);
    SiblingsApart(c);
    assert c in live + {c};
    forall l | l in live
      ensures Apart(l, s) && Apart(l, p) && l != p
    {
      assert l in live + {c};
      assert Apart(l, c);
      if Contains(l, p) {
        ContainsTransitive(l, p, c);
      }
      if Contains(p, l) {
        ContainsThroughChild(p, l);
      }
    }
    assert Contains(p, c);
  }

  // Giving back a block that cannot be joined with its sibling: it becomes a list entry, no other
  // list entry changes, and its own bit is cleared (the root's bit stays set).
  lemma Release(live: set<nat>, c: nat)
    requires c !in live && Separate(live + {c})
    requires c == 0 || Bit(live + {c}, Sibling(c))
    ensures Separate(live) && Maximal(live, c)
    ensures forall z :: Maximal(live, z) <==> Maximal(live + {c}, z) || z == c
    ensures forall z :: Bit(live, z) <==> Bit(live + {c}, z) && (z == c ==> z == 0)
  {
    AddBlock(live, c);
    assert c in live + {c};
    assert forall l :: l in live ==> l in live + {c};
    assert Clear(live, c);
    if c > 0 {
      SiblingsApart(c);
      HoldsUp(live, Parent(c), Sibling(c));
    }
    Take(live, c);
  }
}
