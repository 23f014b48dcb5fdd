// What a cache operation leaves alone: the bytes of everybody else's blocks and the bytes of the
// cache's own live objects.
module SlabFrames {
  import opened Powers
  import opened BuddySteps
  import opened BuddyMemory
  import opened Memory64
  import opened DList
  import opened SlabSpec
  import opened SlabMemory
  import opened SlabBlocks

  // The bytes of every live object of c are the same in m and t.
  ghost predicate ObjectsKept(sh: Shape, c: Cache, m: seq<byte>, t: seq<byte>) {
    |m| == |t| && forall o: nat :: Live(sh, c, o) ==> SameBytes(m, t, o, o + sh.objSize)
  }

  // after has the slabs of c, in the same places, and possibly more.
  ghost predicate Extends(c: map<nat, SlabInfo>, after: map<nat, SlabInfo>) {
    forall a :: a in c ==> a in after && after[a].memory == c[a].memory
  }

  lemma ObjectsKeptThen(sh: Shape, c: Cache, m: seq<byte>, u: seq<byte>, t: seq<byte>)
    requires ObjectsKept(sh, c, m, u) && ObjectsKept(sh, c, u, t)
    ensures ObjectsKept(sh, c, m, t)
  {
    forall o: nat | Live(sh, c, o)
      ensures SameBytes(m, t, o, o + sh.objSize)
    {
      forall i | o <= i < o + sh.objSize
        ensures SameByte(m, t, i)
      {
        assert SameByte(m, u, i) && SameByte(u, t, i);
      }
    }
  }

  // The slab of a live object.
  lemma LiveWhere(sh: Shape, c: Cache, o: nat) returns (a: nat)
    requires ShapeOk(sh) && Live(sh, c, o)
    ensures a in c.slabs && a in c.free && IsSlot(sh, c.slabs[a].memory, o) && o !in c.free[a]
    ensures c.slabs[a].memory <= o && o + sh.objSize <= c.slabs[a].memory + sh.slabSize
  {
    a :| LiveOf(sh, c, a, o);
    SlotInside(sh, c.slabs[a].memory, o);
  }

  // Relinking descriptors touches no object.
  lemma DescriptorsMissObjects(sh: Shape, c: Cache, slabs: map<nat, SlabInfo>, m: seq<byte>, t: seq<byte>)
    requires ShapeOk(sh) && Spread(sh, slabs, |m|) && OnlyDescriptors(m, t, slabs) && Extends(c.slabs, slabs)
    ensures ObjectsKept(sh, c, m, t)
  {
    hide Live, IsSlot, LiveAt;
    forall o: nat | Live(sh, c, o)
      ensures SameBytes(m, t, o, o + sh.objSize)
    {
      var a := LiveWhere(sh, c, o);
      forall i | o <= i < o + sh.objSize
        ensures SameByte(m, t, i)
      {
        assert !InLinks(slabs, i);
      }
    }
  }

  // The objects of nodes are free, if there is a slab b at all.
  ghost predicate FreeIn(slabs: map<nat, SlabInfo>, free: map<nat, seq<nat>>, b: nat, nodes: seq<nat>) {
    b in slabs ==> b in free && forall o :: o in nodes ==> o in free[b]
  }

  // Relinking free objects of slab b touches no live object.
  lemma FreeNodesMissObjects(sh: Shape, c: Cache, slabs: map<nat, SlabInfo>, b: nat, s: seq<nat>, m: seq<byte>,
                             t: seq<byte>)
    requires ShapeOk(sh) && Spread(sh, slabs, |m|) && Extends(c.slabs, slabs) && b in slabs && OnlyNodes(m, t, s)
    requires AllSlots(sh, slabs[b].memory, s)
    requires FreeIn(c.slabs, c.free, b, s)
    ensures ObjectsKept(sh, c, m, t)
  {
    hide Live, IsSlot, LiveAt;
    assert |m| == |t|;
    forall o: nat | Live(sh, c, o)
      ensures SameBytes(m, t, o, o + sh.objSize)
    {
      var a := LiveWhere(sh, c, o);
      forall e | e in s
        ensures e + 16 <= o || o + sh.objSize <= e
      {
        SlotInside(sh, slabs[b].memory, e);
        if a == b {
          SlotsApart(sh, slabs[b].memory, e, o);
        }
      }
      NodesMissRange(m, t, s, o, o + sh.objSize);
    }
  }

  // Whoever keeps the bytes of live blocks keeps those of the objects in them.
  lemma KeptObjects(p: Place, live: set<nat>, home: nat, order: nat, sh: Shape, c: Cache, m: seq<byte>, t: seq<byte>)
    requires ShapeOk(sh) && Owns(p, live, home, order, sh, c.slabs) && Kept(p.n, p.start, m, t, live)
    ensures ObjectsKept(sh, c, m, t)
  {
    hide Live, IsSlot, LiveAt;
    forall o: nat | Live(sh, c, o)
      ensures SameBytes(m, t, o, o + sh.objSize)
    {
      var a := LiveWhere(sh, c, o);
      LiveKept(p, m, t, live, c.slabs[a].memory, order);
      forall i | o <= i < o + sh.objSize
        ensures SameByte(m, t, i)
      {
        assert c.slabs[a].memory <= i < c.slabs[a].memory + sh.slabSize;
      }
    }
  }

  // Others is made of live blocks the cache does not hold.
  ghost predicate Outside(p: Place, live: set<nat>, home: nat, order: nat, slabs: map<nat, SlabInfo>,
                          others: set<nat>) {
    others <= live && others !! Blocks(p, home, order, slabs)
  }

  lemma OwnsMemory(p: Place, live: set<nat>, home: nat, order: nat, sh: Shape, slabs: map<nat, SlabInfo>, b: nat,
                   others: set<nat>)
    requires Owns(p, live, home, order, sh, slabs) && b in slabs && Outside(p, live, home, order, slabs, others)
    ensures LiveAt(p, live, slabs[b].memory, order) && sh.slabSize == 4096 * Pow2(order)
    ensures LiveAt(p, live, b, 0) && 4096 == 4096 * Pow2(0)
    ensures others <= live && BlockAt(p, slabs[b].memory, order) !in others && BlockAt(p, b, 0) !in others
  {
  }

  // Relinking descriptors touches nobody else's block.
  lemma DescriptorsMissOthers(p: Place, live: set<nat>, home: nat, order: nat, sh: Shape, slabs: map<nat, SlabInfo>,
                              others: set<nat>, m: seq<byte>, t: seq<byte>)
    requires Separate(live) && Owns(p, live, home, order, sh, slabs) && Outside(p, live, home, order, slabs, others)
    requires OnlyDescriptors(m, t, slabs)
    ensures Kept(p.n, p.start, m, t, others)
  {
    hide LiveAt;
    SizeOne();
    forall i | 0 <= i < |m| && Owned(p.n, p.start, others, i)
      ensures m[i] == t[i]
    {
      if a :| a in slabs && a <= i < a + 16 {
        NotOthers(p, live, others, a, 0, i);
      }
      assert !InLinks(slabs, i);
    }
  }

  // Relinking objects of slab b touches nobody else's block.
  lemma ObjectsMissOthers(p: Place, live: set<nat>, home: nat, order: nat, sh: Shape, slabs: map<nat, SlabInfo>,
                          others: set<nat>, b: nat, s: seq<nat>, m: seq<byte>, t: seq<byte>)
    requires ShapeOk(sh) && Separate(live) && Owns(p, live, home, order, sh, slabs) &&
             Outside(p, live, home, order, slabs, others)
    requires b in slabs && AllSlots(sh, slabs[b].memory, s) && OnlyNodes(m, t, s)
    ensures Kept(p.n, p.start, m, t, others)
  {
    hide LiveAt;
    forall i | 0 <= i < |m| && Owned(p.n, p.start, others, i)
      ensures m[i] == t[i]
    {
      if e :| e in s && e <= i < e + 16 {
        SlotInside(sh, slabs[b].memory, e);
        NotOthers(p, live, others, slabs[b].memory, order, i);
      }
      assert !InNode(s, i);
    }
  }

  // A slab in two blocks that were not live before adds them to the cache's blocks and nobody else's.
  lemma GrownOthers(p: Place, live: set<nat>, home: nat, order: nat, sh: Shape, slabs: map<nat, SlabInfo>,
                    more: set<nat>, a: nat, info: SlabInfo)
    requires Owns(p, live, home, order, sh, slabs) && Owns(p, more, home, order, sh, slabs[a := info]) && a !in slabs
    requires more == live + {BlockAt(p, a, 0), BlockAt(p, info.memory, order)}
    requires BlockAt(p, a, 0) !in live && BlockAt(p, info.memory, order) !in live
    ensures more - Blocks(p, home, order, slabs[a := info]) == live - Blocks(p, home, order, slabs)
  {
    hide LiveAt, BlockAt;
    BlocksLive(p, live, home, order, sh, slabs);
    BlocksGrown(p, home, order, slabs, a, info);
  }

  lemma BlocksGrown(p: Place, home: nat, order: nat, slabs: map<nat, SlabInfo>, a: nat, info: SlabInfo)
    requires a !in slabs
    ensures Blocks(p, home, order, slabs[a := info])
         == Blocks(p, home, order, slabs) + {BlockAt(p, a, 0), BlockAt(p, info.memory, order)}
  {
    hide BlockAt;
    var after := slabs[a := info];
    assert after.Keys == slabs.Keys + {a};
    assert (set b | b in after :: BlockAt(p, b, 0)) == (set b | b in slabs :: BlockAt(p, b, 0)) + {BlockAt(p, a, 0)};
    assert (set b | b in after :: BlockAt(p, after[b].memory, order))
        == (set b | b in slabs :: BlockAt(p, slabs[b].memory, order)) + {BlockAt(p, info.memory, order)};
  }

  // Descriptors and objects lie in live blocks.
  lemma DescriptorsOwned(p: Place, live: set<nat>, home: nat, order: nat, sh: Shape, slabs: map<nat, SlabInfo>,
                         m: seq<byte>, t: seq<byte>)
    requires Owns(p, live, home, order, sh, slabs) && OnlyDescriptors(m, t, slabs)
    ensures OwnedOnly(p.n, p.start, m, t, live)
  {
    hide Pow2, LiveAt, Owned;
    SizeOne();
    forall i | 0 <= i < |m| && m[i] != t[i]
      ensures Owned(p.n, p.start, live, i)
    {
      assert InLinks(slabs, i);
      var a :| a in slabs && a <= i < a + 16;
      LiveByte(p, live, a, 0, i);
    }
  }

  lemma ObjectsOwned(p: Place, live: set<nat>, home: nat, order: nat, sh: Shape, slabs: map<nat, SlabInfo>, b: nat,
                     s: seq<nat>, m: seq<byte>, t: seq<byte>)
    requires ShapeOk(sh) && Owns(p, live, home, order, sh, slabs) && b in slabs && AllSlots(sh, slabs[b].memory, s) &&
             OnlyNodes(m, t, s)
    ensures OwnedOnly(p.n, p.start, m, t, live)
  {
    hide IsSlot, LiveAt, Owned;
    forall i | 0 <= i < |m| && m[i] != t[i]
      ensures Owned(p.n, p.start, live, i)
    {
      assert InNode(s, i);
      var e :| e in s && e <= i < e + 16;
      SlotInside(sh, slabs[b].memory, e);
      LiveByte(p, live, slabs[b].memory, order, i);
    }
  }

  // Which blocks a cache holds depends on where its slabs are only.
  lemma SamePlaces(p: Place, live: set<nat>, home: nat, order: nat, sh: Shape, slabs: map<nat, SlabInfo>,
                   after: map<nat, SlabInfo>)
    requires Owns(p, live, home, order, sh, slabs) && after.Keys == slabs.Keys && Extends(slabs, after)
    ensures Owns(p, live, home, order, sh, after)
    ensures Blocks(p, home, order, after) == Blocks(p, home, order, slabs)
  {
    hide LiveAt, BlockAt;
    assert forall a :: a in after ==> a in slabs && after[a].memory == slabs[a].memory;
    assert (set b | b in after :: BlockAt(p, b, 0)) == (set b | b in slabs :: BlockAt(p, b, 0));
    assert (set b | b in after :: BlockAt(p, after[b].memory, order)) ==
           (set b | b in slabs :: BlockAt(p, slabs[b].memory, order));
  }

  lemma PromoteKeepsPlaces(sh: Shape, c: Cache, a: nat)
    requires a in c.slabs
    ensures var s := Promote(sh, c, a).slabs; s.Keys == c.slabs.Keys && Extends(c.slabs, s)
  {
  }

  lemma DemoteKeepsPlaces(sh: Shape, c: Cache, a: nat)
    requires a in c.slabs && c.slabs[a].objCounter > 0
    ensures var s := Demote(sh, c, a).slabs; s.Keys == c.slabs.Keys && Extends(c.slabs, s)
  {
  }

  lemma FreeKeepsPlaces(c: Cache, a: nat, head: nat, f: seq<nat>)
    requires a in c.slabs
    ensures var s := WithFree(c, a, head, f).slabs; s.Keys == c.slabs.Keys && Extends(c.slabs, s)
  {
  }

  // Which list a slab is on does not depend on its free list.
  lemma FreeKeepsClass(sh: Shape, c: Cache, a: nat, head: nat, f: seq<nat>)
    requires Classified(sh, c) && a in c.slabs
    ensures Classified(sh, WithFree(c, a, head, f))
  {
    var s := WithFree(c, a, head, f).slabs;
    assert s.Keys == c.slabs.Keys && forall b :: b in s ==> s[b].objCounter == c.slabs[b].objCounter;
  }
}
