// Which buddy blocks a cache holds, and why the buddy allocator never disturbs them.
module SlabBlocks {
  import opened Powers
  import opened BuddyTree
  import opened BuddySteps
  import opened BuddyBlocks
  import opened BuddyTheorems
  import opened BuddyMemory
  import opened Memory64
  import opened DList
  import opened SlabSpec
  import opened SlabMemory

  // Where the buddy heap lies: the number of its orders and its first address.
  datatype Place = Place(n: nat, start: nat)

  // The block of order k at address a.
  function BlockAt(p: Place, a: nat, k: nat): nat {
    if k <= p.n && p.start <= a then IndexOf(p.n, (a - p.start) / 4096, k) else 0
  }

  // A live block of order k starts at a.
  ghost predicate LiveAt(p: Place, live: set<nat>, a: nat, k: nat) {
    && k <= p.n && p.start <= a && BlockAt(p, a, k) in live
    && Depth(BlockAt(p, a, k)) == p.n - k && Address(p.n, p.start, BlockAt(p, a, k)) == a
  }

  lemma LiveBlockAt(p: Place, live: set<nat>, x: nat)
    requires Depth(x) <= p.n && x in live
    ensures var a := Address(p.n, p.start, x);
            LiveAt(p, live, a, p.n - Depth(x)) && BlockAt(p, a, p.n - Depth(x)) == x
  {
    IndexOfFirstPage(p.n, x);
    assert (Address(p.n, p.start, x) - p.start) / 4096 == FirstPage(p.n, x);
  }

  // The cache's own page, its slab descriptors and its slab memories are live blocks; the cache's page
  // overlaps none of the others.
  ghost predicate Owns(p: Place, live: set<nat>, home: nat, order: nat, sh: Shape, slabs: map<nat, SlabInfo>) {
    && sh.slabSize == 4096 * Pow2(order)
    && LiveAt(p, live, home, 0)
    && (forall a :: a in slabs ==> LiveAt(p, live, a, 0) && LiveAt(p, live, slabs[a].memory, order))
    && (forall a :: a in slabs ==> Disjoint(home, 4096, a, 4096) && Disjoint(home, 4096, slabs[a].memory, sh.slabSize))
  }

  // The blocks the cache holds.
  ghost function Blocks(p: Place, home: nat, order: nat, slabs: map<nat, SlabInfo>): set<nat> {
    {BlockAt(p, home, 0)} + (set a | a in slabs :: BlockAt(p, a, 0)) +
      (set a | a in slabs :: BlockAt(p, slabs[a].memory, order))
  }

  // Two live blocks are the same or share no byte.
  lemma LiveDisjoint(p: Place, live: set<nat>, a: nat, k: nat, b: nat, j: nat)
    requires Separate(live) && LiveAt(p, live, a, k) && LiveAt(p, live, b, j)
    requires BlockAt(p, a, k) != BlockAt(p, b, j)
    ensures Disjoint(a, 4096 * Pow2(k), b, 4096 * Pow2(j))
  {
    hide Contains, IndexOf, FirstPage;
    ApartBytes(p.n, p.start, BlockAt(p, a, k), BlockAt(p, b, j));
  }

  // A byte of a live block is owned.
  lemma LiveByte(p: Place, live: set<nat>, a: nat, k: nat, i: int)
    requires LiveAt(p, live, a, k) && a <= i < a + 4096 * Pow2(k)
    ensures Owned(p.n, p.start, live, i)
  {
    hide Contains, LivePage, Owned, IndexOf, FirstPage;
    LiveOwned(p.n, p.start, live, BlockAt(p, a, k), i);
  }

  // Whatever keeps the bytes of live blocks keeps those of each live block.
  lemma LiveKept(p: Place, m: seq<byte>, t: seq<byte>, live: set<nat>, a: nat, k: nat)
    requires Kept(p.n, p.start, m, t, live) && LiveAt(p, live, a, k)
    ensures SameBytes(m, t, a, a + 4096 * Pow2(k))
  {
    hide LiveAt, Owned;
    forall i | a <= i < a + 4096 * Pow2(k)
      ensures SameByte(m, t, i)
    {
      LiveByte(p, live, a, k, i);
    }
  }

  // Bytes of a block that is not among the others belong to none of them.
  lemma NotOthers(p: Place, live: set<nat>, others: set<nat>, a: nat, k: nat, i: int)
    requires Separate(live) && others <= live && LiveAt(p, live, a, k) && BlockAt(p, a, k) !in others
    requires a <= i < a + 4096 * Pow2(k)
    ensures !Owned(p.n, p.start, others, i)
  {
    var x := BlockAt(p, a, k);
    assert Clear(others, x);
    ClearNotOwned(p.n, p.start, others, x, i);
  }

  // What the buddy allocator does on behalf of anyone else leaves the cache as it is.
  lemma BuddyKeepsCache(p: Place, sh: Shape, m: seq<byte>, t: seq<byte>, live: set<nat>, home: nat, order: nat,
                        h: Heads, c: Cache)
    requires Represents(sh, m, h, c) && Owns(p, live, home, order, sh, c.slabs) && Kept(p.n, p.start, m, t, live)
    ensures Represents(sh, t, h, c)
  {
    hide Linked, SameBytes, LiveAt, Spread, Kept;
    KeptLength(p, m, t, live);
    forall a | a in c.slabs
      ensures SameBytes(m, t, a, a + 4096) && SameBytes(m, t, c.slabs[a].memory, c.slabs[a].memory + sh.slabSize)
    {
      LiveKept(p, m, t, live, a, 0);
      LiveKept(p, m, t, live, c.slabs[a].memory, order);
    }
    SlabListsKept(m, t, h, c);
    forall a | a in c.slabs
      ensures Linked(t, 0, c.slabs[a].freeList, c.free[a])
    {
      MemoryKept(sh, m, t, c.slabs[a].memory, c.slabs[a].freeList, c.free[a]);
    }
  }

  lemma KeptLength(p: Place, m: seq<byte>, t: seq<byte>, live: set<nat>)
    requires Kept(p.n, p.start, m, t, live)
    ensures |m| == |t|
  {
  }

  function WithSlab(c: Cache, a: nat, info: SlabInfo, f: seq<nat>): Cache {
    c.(slabs := c.slabs[a := info], free := c.free[a := f])
  }

  // A live block the cache does not hold overlaps nothing of the cache.
  ghost predicate Stranger(p: Place, live: set<nat>, home: nat, order: nat, sh: Shape, slabs: map<nat, SlabInfo>,
                           a: nat, k: nat) {
    && LiveAt(p, live, a, k) && Disjoint(home, 4096, a, 4096 * Pow2(k))
    && forall b :: b in slabs ==>
       Disjoint(b, 4096, a, 4096 * Pow2(k)) && Disjoint(slabs[b].memory, sh.slabSize, a, 4096 * Pow2(k))
  }

  lemma NotHeld(p: Place, live: set<nat>, home: nat, order: nat, sh: Shape, slabs: map<nat, SlabInfo>, a: nat, k: nat)
    requires Separate(live) && LiveAt(p, live, a, k) && Owns(p, live, home, order, sh, slabs)
    requires BlockAt(p, a, k) !in Blocks(p, home, order, slabs)
    ensures Stranger(p, live, home, order, sh, slabs, a, k)
  {
    hide LiveAt, Separate, BlockAt;
    assert Pow2(0) == 1;
    LiveDisjoint(p, live, home, 0, a, k);
    forall b | b in slabs
      ensures Disjoint(b, 4096, a, 4096 * Pow2(k)) && Disjoint(slabs[b].memory, sh.slabSize, a, 4096 * Pow2(k))
    {
      LiveDisjoint(p, live, b, 0, a, k);
      LiveDisjoint(p, live, slabs[b].memory, order, a, k);
    }
  }

  lemma SpreadAdded(sh: Shape, slabs: map<nat, SlabInfo>, a: nat, info: SlabInfo, size: nat)
    requires Spread(sh, slabs, size) && Disjoint(a, 4096, info.memory, sh.slabSize)
    requires forall b :: b in slabs ==> Disjoint(b, 4096, a, 4096) && Disjoint(slabs[b].memory, sh.slabSize, a, 4096)
    requires forall b :: b in slabs ==>
      Disjoint(b, 4096, info.memory, sh.slabSize) && Disjoint(slabs[b].memory, sh.slabSize, info.memory, sh.slabSize)
    requires 0 < a && a + 4096 <= size && 0 < info.memory && info.memory + sh.slabSize <= size
    ensures Spread(sh, slabs[a := info], size)
  {
    SpreadPlaces(sh, slabs, size);
    hide Spread, Disjoint;
    var after := slabs[a := info];
    forall x, y | x in after && y in after
      ensures x != y ==>
              Disjoint(x, 4096, y, 4096) && Disjoint(after[x].memory, sh.slabSize, after[y].memory, sh.slabSize)
      ensures Disjoint(x, 4096, after[y].memory, sh.slabSize)
    {
      DisjointSymmetric();
      if x != a && y != a {
        SpreadPair(sh, slabs, x, y, size);
      }
    }
    MakeSpread(sh, after, size);
  }

  lemma DisjointSymmetric()
    ensures forall a, s, b, t :: Disjoint(a, s, b, t) ==> Disjoint(b, t, a, s)
  {
  }

  lemma SpreadPlaces(sh: Shape, slabs: map<nat, SlabInfo>, size: nat)
    requires Spread(sh, slabs, size)
    ensures size <= TWO_TO_64
    ensures forall a :: a in slabs ==>
            0 < a && a + 4096 <= size && 0 < slabs[a].memory && slabs[a].memory + sh.slabSize <= size
  {
    hide Disjoint;
  }

  lemma MakeSpread(sh: Shape, slabs: map<nat, SlabInfo>, size: nat)
    requires size <= TWO_TO_64
    requires forall a :: a in slabs ==>
             0 < a && a + 4096 <= size && 0 < slabs[a].memory && slabs[a].memory + sh.slabSize <= size
    requires forall x, y :: x in slabs && y in slabs && x != y ==>
               Disjoint(x, 4096, y, 4096) && Disjoint(slabs[x].memory, sh.slabSize, slabs[y].memory, sh.slabSize)
    requires forall x, y :: x in slabs && y in slabs ==> Disjoint(x, 4096, slabs[y].memory, sh.slabSize)
    ensures Spread(sh, slabs, size)
  {
    hide Disjoint;
  }

  lemma SpreadPair(sh: Shape, slabs: map<nat, SlabInfo>, x: nat, y: nat, size: nat)
    requires Spread(sh, slabs, size) && x in slabs && y in slabs
    ensures x != y ==>
            Disjoint(x, 4096, y, 4096) && Disjoint(slabs[x].memory, sh.slabSize, slabs[y].memory, sh.slabSize)
    ensures Disjoint(x, 4096, slabs[y].memory, sh.slabSize)
  {
  }

  lemma SizeOne()
    ensures 4096 * Pow2(0) == 4096
  {
  }

  lemma RepresentsAdded(sh: Shape, m: seq<byte>, h: Heads, c: Cache, a: nat, info: SlabInfo, f: seq<nat>)
    requires Represents(sh, m, h, c) && a !in c.slabs && Spread(sh, c.slabs[a := info], |m|)
    requires Linked(m, 0, info.freeList, f) && AllSlots(sh, info.memory, f)
    ensures Represents(sh, m, h, WithSlab(c, a, info, f))
  {
    hide Linked, IsSlot, Spread;
  }

  lemma OwnsAdded(p: Place, live: set<nat>, home: nat, order: nat, sh: Shape, slabs: map<nat, SlabInfo>, a: nat,
                  info: SlabInfo)
    requires Owns(p, live, home, order, sh, slabs) && LiveAt(p, live, a, 0) && LiveAt(p, live, info.memory, order)
    requires Disjoint(home, 4096, a, 4096) && Disjoint(home, 4096, info.memory, sh.slabSize)
    ensures Owns(p, live, home, order, sh, slabs[a := info])
  {
    hide LiveAt;
  }

  // A cache with one more slab, on no list yet, whose objects are all free.
  lemma SlabAdded(p: Place, live: set<nat>, home: nat, order: nat, sh: Shape, m: seq<byte>, h: Heads, c: Cache,
                  a: nat, memory: nat, f: seq<nat>)
    requires Represents(sh, m, h, c) && Owns(p, live, home, order, sh, c.slabs)
    requires Stranger(p, live, home, order, sh, c.slabs, a, 0) &&
             Stranger(p, live, home, order, sh, c.slabs, memory, order)
    requires Disjoint(a, 4096, memory, sh.slabSize)
    requires 0 < a && a + 4096 <= |m| && 0 < memory && memory + sh.slabSize <= |m|
    requires Linked(m, 0, memory, f) && AllSlots(sh, memory, f)
    ensures a !in c.slabs
    ensures var c' := WithSlab(c, a, SlabInfo(memory, memory, 0), f);
            Represents(sh, m, h, c') && Owns(p, live, home, order, sh, c'.slabs)
  {
    hide Linked, LiveAt, AllSlots, Spread, Pow2, Tidy, FreeSlots, SlabLists, ObjectLists;
    var info := SlabInfo(memory, memory, 0);
    SizeOne();
    SpreadAdded(sh, c.slabs, a, info, |m|);
    RepresentsAdded(sh, m, h, c, a, info, f);
    OwnsAdded(p, live, home, order, sh, c.slabs, a, info);
  }

  lemma OwnsMore(p: Place, live: set<nat>, more: set<nat>, home: nat, order: nat, sh: Shape, slabs: map<nat, SlabInfo>)
    requires Owns(p, live, home, order, sh, slabs) && live <= more
    ensures Owns(p, more, home, order, sh, slabs)
  {
    assert forall a: nat, k: nat :: LiveAt(p, live, a, k) ==> LiveAt(p, more, a, k);
  }

  lemma BlocksLive(p: Place, live: set<nat>, home: nat, order: nat, sh: Shape, slabs: map<nat, SlabInfo>)
    requires Owns(p, live, home, order, sh, slabs)
    ensures Blocks(p, home, order, slabs) <= live
  {
    hide BlockAt, LiveAt;
    LiveAtIn(p, live, home, 0);
    forall a | a in slabs
      ensures BlockAt(p, a, 0) in live && BlockAt(p, slabs[a].memory, order) in live
    {
      LiveAtIn(p, live, a, 0);
      LiveAtIn(p, live, slabs[a].memory, order);
    }
  }

  lemma LiveAtIn(p: Place, live: set<nat>, a: nat, k: nat)
    requires LiveAt(p, live, a, k)
    ensures BlockAt(p, a, k) in live
  {
  }

  // Writing inside a live block touches no byte of the blocks of others.
  lemma BlockWriteKept(p: Place, m: seq<byte>, t: seq<byte>, live: set<nat>, others: set<nat>, a: nat, k: nat)
    requires Separate(live) && others <= live && LiveAt(p, live, a, k) && BlockAt(p, a, k) !in others
    requires SameOutside(m, t, a, a + 4096 * Pow2(k))
    ensures Kept(p.n, p.start, m, t, others)
  {
    forall i | 0 <= i < |m| && Owned(p.n, p.start, others, i)
      ensures m[i] == t[i]
    {
      if a <= i < a + 4096 * Pow2(k) {
        NotOthers(p, live, others, a, k, i);
      }
    }
  }

  lemma BlockWriteOwned(p: Place, m: seq<byte>, t: seq<byte>, live: set<nat>, a: nat, k: nat)
    requires LiveAt(p, live, a, k) && SameOutside(m, t, a, a + 4096 * Pow2(k))
    ensures OwnedOnly(p.n, p.start, m, t, live)
  {
    hide LiveAt, Owned;
    forall i | 0 <= i < |m| && m[i] != t[i]
      ensures Owned(p.n, p.start, live, i)
    {
      LiveByte(p, live, a, k, i);
    }
  }

  // Taking in a slab whose two blocks were not live before.
  lemma FreshSlabAdded(p: Place, live: set<nat>, more: set<nat>, home: nat, order: nat, sh: Shape, m: seq<byte>,
                       h: Heads, c: Cache, a: nat, memory: nat, f: seq<nat>)
    requires Represents(sh, m, h, c) && Owns(p, live, home, order, sh, c.slabs) && Separate(more) && live <= more
    requires LiveAt(p, more, a, 0) && LiveAt(p, more, memory, order)
    requires BlockAt(p, a, 0) !in live && BlockAt(p, memory, order) !in live &&
             BlockAt(p, a, 0) != BlockAt(p, memory, order)
    requires 0 < a && a + 4096 <= |m| && 0 < memory && memory + sh.slabSize <= |m|
    requires Linked(m, 0, memory, f) && AllSlots(sh, memory, f)
    ensures a !in c.slabs
    ensures var c' := WithSlab(c, a, SlabInfo(memory, memory, 0), f);
            Represents(sh, m, h, c') && Owns(p, more, home, order, sh, c'.slabs)
  {
    hide Represents, Separate, Linked, AllSlots;
    assert Pow2(0) == 1;
    BlocksLive(p, live, home, order, sh, c.slabs);
    OwnsMore(p, live, more, home, order, sh, c.slabs);
    NotHeld(p, more, home, order, sh, c.slabs, a, 0);
    NotHeld(p, more, home, order, sh, c.slabs, memory, order);
    LiveDisjoint(p, more, a, 0, memory, order);
    SlabAdded(p, more, home, order, sh, m, h, c, a, memory, f);
  }
}
