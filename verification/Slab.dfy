// The slab allocator (slab.cpp): caches of equal-sized objects in slabs obtained from the buddy
// allocator.
module Slab {
  import opened Powers
  import opened BuddySteps
  import opened BuddyMemory
  import opened Buddy
  import opened Memory64
  import opened DList
  import opened SlabSpec
  import opened SlabMemory
  import opened SlabRecords
  import opened SlabFields
  import opened SlabLinking
  import opened SlabBlocks
  import opened SlabFrames
  import opened SlabSteps
  import opened SlabLive
  import opened SlabSupply
  import opened SlabMoves
  import opened SlabTeardown

  class KmemCache {
    const buddy: BuddyAllocator
    const home: nat
    const sh: Shape
    ghost const order: nat
    var heads: Heads
    ghost var slabs: map<nat, SlabInfo>
    ghost var value: Cache

    ghost function At(): Site
      reads buddy
    {
      Site(Place(buddy.n, buddy.start), buddy.live, home, order, sh)
    }

    // Memory and list heads hold value, in live blocks of the cache's own; slabs are the records of its
    // descriptors.
    ghost predicate Holding()
      reads this, buddy, buddy.mem
    {
      value.slabs == slabs && Stocked(At(), buddy.mem[..], heads, value) && Recorded(buddy.mem[..], slabs)
    }

    // The buddy allocator is sound, the cache holds value, and every object of a slab is counted or free.
    ghost predicate Valid()
      reads this, buddy, buddy.mem, buddy.bitmap, buddy.freeList
    {
      buddy.Valid() && Holding() && Counted(sh, slabs, value.free)
    }

    // The live blocks that are somebody else's.
    ghost function Others(): set<nat>
      reads this, buddy
    {
      OthersOf(At(), slabs)
    }

    // The part of kmem_cache_create after its block is allocated: object and slab sizes, empty lists.
    constructor (buddy: BuddyAllocator, home: nat, size: nat)
      ensures this.buddy == buddy && this.home == home
      ensures Fitting(size, sh, order) && sh == ShapeFor(size) && order == SlabOrder(size) && ShapeOk(sh)
      ensures heads == Heads(0, 0, 0) && slabs == map[] && value == Cache([], [], [], map[], map[])
    {
      var objSize := if size > 16 then size else 16;
      var slabSize := 4096;
      var maxObjects := slabSize / objSize;
      ghost var j := 0;
      while maxObjects < 8
        invariant slabSize == 4096 * Pow2(j) && maxObjects == slabSize / objSize
        invariant j == 0 || 4096 * Pow2(j - 1) < 8 * objSize
        decreases 8 * objSize - slabSize
      {
        FewerThanEight(slabSize, objSize);
        slabSize := slabSize * 2;
        maxObjects := slabSize / objSize;
        j := j + 1;
      }
      QuotientFits(slabSize, objSize);
      EightFit(slabSize, objSize);
      assert slabSize <= 256 * objSize;
      AtMost(slabSize, objSize, 256);
      SlabOrderUnique(size, j);
      FittingExactly(size, Shape(objSize, slabSize, maxObjects), j);
      this.buddy, this.home, this.sh := buddy, home, Shape(objSize, slabSize, maxObjects);
      heads, slabs := Heads(0, 0, 0), map[];
      value := Cache([], [], [], map[], map[]);
      order := j;
    }

    // slabInit, and the push on the empty list that choose_slab does next; 0 when the buddy allocator
    // cannot supply the two blocks.
    method Grow() returns (newslab: nat)
      requires Valid() && order <= buddy.n
      modifies this, buddy, buddy.mem, buddy.bitmap, buddy.freeList
      ensures Valid() && Others() == old(Others())
      ensures newslab != 0 <==> old(CanTakeTwo(buddy.lists, order))
      ensures newslab == 0 ==> unchanged(this) && buddy.live == old(buddy.live) && buddy.lists == old(buddy.lists)
      ensures newslab != 0 ==> Supplied(old(buddy.live), old(buddy.lists), [0, order], buddy.live, buddy.lists)
      ensures newslab != 0 ==>
                && newslab !in old(slabs) && newslab in slabs
                && value == Grown(old(value), newslab, slabs[newslab].memory, Slots(sh, slabs[newslab].memory))
      ensures Kept(buddy.n, buddy.start, old(buddy.mem[..]), buddy.mem[..], Others())
      ensures ObjectsKept(sh, old(value), old(buddy.mem[..]), buddy.mem[..])
    {
      hide *;
      Names();
      ghost var m, s, c := buddy.mem[..], At(), value;
      HoldingParts();
      SizeOfSlab(sh, order);
      var memory;
      newslab, memory := TakeTwo(buddy, sh.slabSize, order);
      Names();
      LiveSeparate(buddy);
      StockedParts(s, m, heads, c);
      OwnersKeepRecords(s.p, s.live, home, order, sh, slabs, m, buddy.mem[..]);
      RecordedThen(m, buddy.mem[..], slabs);
      if newslab == 0 {
        BuddyKeepsStocked(s, m, heads, c, buddy.live, buddy.mem[..]);
        KeptAround(s, m, heads, c, buddy.mem[..]);
        MakeValid();
        return;
      }
      TwoSupplied(s.live, old(buddy.lists), order, BlockAt(s.p, newslab, 0), BlockAt(s.p, memory, order), buddy.live,
                  buddy.lists);
      TakenFrom(newslab, memory, s, m);
      AdoptSlab(newslab, memory, s, m);
    }

    lemma Names()
      ensures At() == Site(Place(buddy.n, buddy.start), buddy.live, home, order, sh)
      ensures Others() == OthersOf(At(), slabs)
    {
    }

    lemma TakenFrom(a: nat, memory: nat, s: Site, m: seq<byte>)
      requires buddy.Valid() && value.slabs == slabs && At() == s.(live := buddy.live) && Stocked(s, m, heads, value)
      requires Counted(sh, slabs, value.free) && Kept(s.p.n, s.p.start, m, buddy.mem[..], s.live)
      requires buddy.live == s.live + {BlockAt(s.p, a, 0), BlockAt(s.p, memory, order)} && Separate(buddy.live) &&
               a != 0 && memory != 0
      requires LiveAt(s.p, buddy.live, a, 0) && LiveAt(s.p, buddy.live, memory, order)
      requires BlockAt(s.p, a, 0) !in s.live && BlockAt(s.p, memory, order) !in s.live &&
               BlockAt(s.p, a, 0) != BlockAt(s.p, memory, order)
      requires a + 4096 <= buddy.mem.Length && memory + sh.slabSize <= buddy.mem.Length &&
               Recorded(buddy.mem[..], slabs)
      ensures Taken(a, memory, s, m)
    {
    }

    // The two blocks of a new slab came live since the cache was stocked at s in memory m.
    ghost predicate Taken(a: nat, memory: nat, s: Site, m: seq<byte>)
      reads this, buddy, buddy.mem, buddy.bitmap, buddy.freeList
    {
      && buddy.Valid() && value.slabs == slabs && At() == s.(live := buddy.live) && Stocked(s, m, heads, value)
      && Counted(sh, slabs, value.free) && Kept(s.p.n, s.p.start, m, buddy.mem[..], s.live)
      && NewBlocks(s, buddy.live, a, memory) && a + 4096 <= buddy.mem.Length && memory + sh.slabSize <= buddy.mem.Length
      && Recorded(buddy.mem[..], slabs)
    }

    lemma TakenParts(a: nat, memory: nat, s: Site, m: seq<byte>)
      requires Taken(a, memory, s, m)
      ensures buddy.Valid() && value.slabs == slabs && At() == s.(live := buddy.live) && Stocked(s, m, heads, value)
      ensures Counted(sh, slabs, value.free) && Kept(s.p.n, s.p.start, m, buddy.mem[..], s.live)
      ensures NewBlocks(s, buddy.live, a, memory) && a + 4096 <= buddy.mem.Length &&
              memory + sh.slabSize <= buddy.mem.Length
      ensures a != 0 && memory != 0 && s.live <= buddy.live && s.sh == sh && s.p == Place(buddy.n, buddy.start) &&
              s.order == order
      ensures ShapeOk(sh) && sh.slabSize == 4096 * Pow2(order)
      ensures LiveAt(s.p, buddy.live, memory, order) && BlockAt(s.p, memory, order) !in s.live
      ensures LiveAt(s.p, buddy.live, a, 0) && BlockAt(s.p, a, 0) !in s.live &&
              BlockAt(s.p, a, 0) != BlockAt(s.p, memory, order)
      ensures BlockAt(s.p, a, 0) in buddy.live && LiveAt(s.p, s.live + {BlockAt(s.p, a, 0)}, a, 0)
      ensures Recorded(buddy.mem[..], slabs) && |buddy.mem[..]| <= TWO_TO_64
      ensures Owns(s.p, s.live, s.home, s.order, s.sh, slabs) && s.home == home
    {
    }

    // The new slab's links, its record and its place on the empty list.
    method AdoptSlab(newslab: nat, memory: nat, ghost s: Site, ghost m: seq<byte>)
      requires Taken(newslab, memory, s, m)
      modifies this, buddy.mem
      ensures Valid() && Others() == OthersOf(s, old(slabs)) && newslab !in old(slabs)
      ensures newslab in slabs && slabs[newslab].memory == memory &&
              value == Grown(old(value), newslab, memory, Slots(sh, memory))
      ensures Kept(buddy.n, buddy.start, m, buddy.mem[..], Others()) && ObjectsKept(sh, old(value), m, buddy.mem[..])
    {
      hide *;
      ghost var c, t1 := value, buddy.mem[..];
      TakenParts(newslab, memory, s, m);
      WriteRecord(buddy, newslab, memory, s.live);
      ghost var u, more := buddy.mem[..], s.live + {BlockAt(s.p, newslab, 0)};
      FillMemory(buddy, memory, sh, order, more);
      ghost var t2 := buddy.mem[..];
      PageKeepsRecord(s.p, u, t2, more, newslab, SlabInfo(memory, memory, 0));
      KeptSubset(s.p.n, s.p.start, u, t2, more, s.live);
      KeptThen(s.p.n, s.p.start, t1, u, t2, s.live);
      OwnersKeepRecords(s.p, s.live, home, order, sh, slabs, t1, t2);
      RecordedThen(t1, t2, slabs);
      RecordsOfMore(t2, slabs, newslab, SlabInfo(memory, memory, 0));
      KeptThen(s.p.n, s.p.start, m, t1, t2, s.live);
      KeptAround(s, m, heads, c, t2);
      SlabFilled(s, m, heads, c, buddy.live, t2, newslab, memory);
      Record(newslab, memory, s);
      ghost var t3 := buddy.mem[..];
      KeptThen(s.p.n, s.p.start, m, t2, t3, OthersOf(s, c.slabs));
      ObjectsKeptThen(sh, c, m, t2, t3);
    }

    // The record of the new slab and its place on the empty list.
    method Record(newslab: nat, memory: nat, ghost s: Site)
      requires buddy.Valid() && value.slabs == slabs && At() == s.(live := buddy.live) && Counted(sh, slabs, value.free)
      requires Classified(sh, value) && Owns(s.p, s.live, s.home, s.order, s.sh, slabs)
      requires NewBlocks(s, buddy.live, newslab, memory) && newslab !in slabs
      requires Recorded(buddy.mem[..], slabs[newslab := SlabInfo(memory, memory, 0)])
      requires Loose(At(), buddy.mem[..], heads,
               WithSlab(value, newslab, SlabInfo(memory, memory, 0), Slots(sh, memory)), newslab)
      modifies this, buddy.mem
      ensures Valid() && Others() == OthersOf(s, old(slabs))
      ensures newslab in slabs && slabs[newslab].memory == memory &&
              value == Grown(old(value), newslab, memory, Slots(sh, memory))
      ensures Kept(buddy.n, buddy.start, old(buddy.mem[..]), buddy.mem[..], Others())
      ensures ObjectsKept(sh, old(value), old(buddy.mem[..]), buddy.mem[..])
    {
      hide *;
      Names();
      ghost var c, s1, t, f, info := value, At(), buddy.mem[..], Slots(sh, memory), SlabInfo(memory, memory, 0);
      ghost var c1 := WithSlab(c, newslab, info, f);
      GrownIs(c, newslab, memory, f);
      LooseParts(s1, t, heads, c1, newslab);
      StillValidWith(buddy);
      heads := PushedEmpty(buddy.mem, heads, newslab, s1, c1, c);
      RecordedThen(t, buddy.mem[..], c1.slabs);
      slabs := slabs[newslab := SlabInfo(memory, memory, 0)];
      value := Grown(c, newslab, memory, f);
      Names();
      DiscreetParts(s1, OthersOf(s1, c1.slabs), c, t, buddy.mem[..]);
      buddy.ValidAfterOwnedWrites(t);
      GrownClassified(sh, c, newslab, memory, f);
      GrownCounted(sh, c, newslab, memory);
      MakeStocked(s1, buddy.mem[..], heads, value);
      NewBlocksParts(s, buddy.live, newslab, memory);
      GrownOthers(s.p, s.live, s.home, s.order, s.sh, c.slabs, buddy.live, newslab, info);
      OthersIs(s, c.slabs);
      OthersIs(s1, slabs);
      MakeValid();
    }

    // The orders of the blocks the next allocation takes: none while a slab has a free object.
    ghost function Wanting(): seq<nat>
      reads this
    {
      if value.partial == [] && value.empty == [] then [0, order] else []
    }

    lemma WantingIs()
      ensures Wanting() == if value.partial == [] && value.empty == [] then [0, order] else []
    {
    }

    // The slab an object is taken from, already moved to the list of its new count; 0 when there is
    // neither a slab with a free object nor memory for a new one. c is the state it was chosen in.
    method ChooseSlab() returns (slab: nat, ghost c: Cache)
      requires Valid() && order <= buddy.n
      modifies this, buddy, buddy.mem, buddy.bitmap, buddy.freeList
      ensures buddy.Valid() && Holding() && Others() == old(Others())
      ensures slab == 0 <==> old(value.partial == [] && value.empty == [] && !CanTakeTwo(buddy.lists, order))
      ensures slab == 0 ==>
              value == old(value) && buddy.live == old(buddy.live) && buddy.lists == old(buddy.lists) && Valid()
      ensures slab != 0 ==>
              Picked(sh, old(value), c, slab) && Ready(sh, old(value), c, slab) &&
              value == Promote(sh, c, slab) && Counted(sh, c.slabs, c.free)
      ensures slab != 0 ==>
              Supplied(old(buddy.live), old(buddy.lists), old(Wanting()), buddy.live, buddy.lists)
      ensures Kept(buddy.n, buddy.start, old(buddy.mem[..]), buddy.mem[..], Others())
      ensures ObjectsKept(sh, old(value), old(buddy.mem[..]), buddy.mem[..])
    {
      hide *;
      ghost var m, c0 := buddy.mem[..], value;
      HoldingParts();
      HeadsAre(At(), m, heads, c0);
      SameAround(buddy.n, buddy.start, sh, c0, m, Others());
      WantingIs();
      NothingSupplied(buddy.live, buddy.lists);
      slab := 0;
      if heads.partial != 0 {
        slab := Fullest();
      } else {
        slab := heads.empty;
      }
      PickedOld(sh, c0, slab);
      if slab == 0 {
        slab := Grow();
        HoldingParts();
        if slab == 0 {
          return slab, value;
        }
        PickedNew(sh, c0, value, slab);
      }
      c := value;
      HoldingParts();
      Settle(slab, c0, m);
    }

    // choose_slab's moves and count for the picked slab; m and c0 are memory and state at the call.
    method Settle(slab: nat, ghost c0: Cache, ghost m: seq<byte>)
      requires Valid() && Picked(sh, c0, value, slab)
      requires Kept(buddy.n, buddy.start, m, buddy.mem[..], Others()) && ObjectsKept(sh, c0, m, buddy.mem[..])
      modifies this, buddy.mem
      ensures buddy.Valid() && Holding() && Others() == old(Others()) && value == Promote(sh, old(value), slab)
      ensures Ready(sh, c0, old(value), slab)
      ensures Kept(buddy.n, buddy.start, m, buddy.mem[..], Others()) && ObjectsKept(sh, c0, m, buddy.mem[..])
    {
      hide *;
      Names();
      ghost var t, c, s := buddy.mem[..], value, At();
      HoldingParts();
      StockedParts(s, t, heads, c);
      PickedHasRoom(sh, c0, c, slab);
      ReadyParts(sh, c0, c, slab);
      var n := LoadCounter(buddy.mem, slab, slabs);
      StillValidWith(buddy);
      heads := Promoted(buddy.mem, heads, slab, n, sh.maxObjects, s, c, c0);
      ghost var t1 := buddy.mem[..];
      RecordedThen(t, t1, slabs);
      PromoteSlabs(sh, c, slab);
      PromoteSame(sh, c0, c, slab);
      FieldsFit(s, t1, heads, Promote(sh, c, slab), slab);
      StoreCounter(buddy.mem, slab, n + 1, s, heads, Promote(sh, c, slab), c0, slabs);
      DiscreetThen(s, OthersOf(s, c.slabs), c0, t, t1, buddy.mem[..]);
      slabs := slabs[slab := slabs[slab].(objCounter := n + 1)];
      value := Promote(sh, c, slab);
      Names();
      DiscreetParts(s, OthersOf(s, c.slabs), c0, t, buddy.mem[..]);
      buddy.ValidAfterOwnedWrites(t);
      KeptThen(buddy.n, buddy.start, m, t, buddy.mem[..], Others());
      ObjectsKeptThen(sh, c0, m, t, buddy.mem[..]);
      MakeHolding();
    }

    lemma HoldingIs()
      requires Holding()
      ensures value.slabs == slabs && Stocked(At(), buddy.mem[..], heads, value) && Recorded(buddy.mem[..], slabs)
    {
    }

    lemma MakeHolding()
      requires value.slabs == slabs && Stocked(At(), buddy.mem[..], heads, value) && Recorded(buddy.mem[..], slabs)
      ensures Holding()
    {
    }

    // An allocation can be served: some slab has a free object, or a new slab can be had.
    ghost predicate CanServe()
      requires Valid() && order <= buddy.n
      reads this, buddy, buddy.mem, buddy.bitmap, buddy.freeList
    {
      value.partial != [] || value.empty != [] || CanTakeTwo(buddy.lists, order)
    }

    // An object nobody holds, into which its constructor writes image; eight objects must fit in the heap.
    // The result is 0 exactly when there is neither a free object nor memory for a new slab; the program would
    // go on to use the null slab.
    method Alloc(image: seq<byte>) returns (o: nat, ghost slab: nat, ghost c: Cache)
      requires Valid() && order <= buddy.n && |image| <= sh.objSize
      modifies this, buddy, buddy.mem, buddy.bitmap, buddy.freeList
      ensures Valid() && Others() == old(Others())
      ensures o == 0 <==> !old(CanServe())
      ensures o == 0 ==>
              value == old(value) && buddy.live == old(buddy.live) && buddy.lists == old(buddy.lists) && !CanServe()
      ensures o != 0 ==> Supplied(old(buddy.live), old(buddy.lists), old(Wanting()), buddy.live, buddy.lists)
      ensures o != 0 ==> Served(sh, old(value), c, slab, o, value)
      ensures o != 0 ==>
              !old(Live(sh, value, o)) &&
              forall x: nat :: Live(sh, value, x) <==> x == o || old(Live(sh, value, x))
      ensures o != 0 ==> o + |image| <= buddy.mem.Length && buddy.mem[o..o + |image|] == image
      ensures Kept(buddy.n, buddy.start, old(buddy.mem[..]), buddy.mem[..], Others())
      ensures ObjectsKept(sh, old(value), old(buddy.mem[..]), buddy.mem[..])
    {
      hide *;
      ghost var m, c0 := buddy.mem[..], value;
      HoldingParts();
      ServeParts();
      var picked;
      picked, c := ChooseSlab();
      slab := picked;
      if picked == 0 {
        HoldingParts();
        ServeParts();
        return 0, picked, c0;
      }
      o := TakeObject(picked, c0, c, m);
      Construct(o, image, c0, m);
    }

    lemma ServeParts()
      requires Valid() && order <= buddy.n
      ensures order < |buddy.lists|
      ensures CanServe() <==> value.partial != [] || value.empty != [] || CanTakeTwo(buddy.lists, order)
    {
    }

    // list_pop on the picked slab.
    method TakeObject(slab: nat, ghost c0: Cache, ghost c: Cache, ghost m: seq<byte>) returns (o: nat)
      requires buddy.Valid() && Holding() && Ready(sh, c0, c, slab) && value == Promote(sh, c, slab)
      requires Counted(sh, c.slabs, c.free) && Counted(sh, c0.slabs, c0.free) && Picked(sh, c0, c, slab)
      requires Kept(buddy.n, buddy.start, m, buddy.mem[..], Others()) && ObjectsKept(sh, c0, m, buddy.mem[..])
      modifies this, buddy.mem
      ensures Valid() && Others() == old(Others()) && o != 0 && Served(sh, c0, c, slab, o, value)
      ensures !Live(sh, c0, o) && forall x: nat :: Live(sh, value, x) <==> x == o || Live(sh, c0, x)
      ensures Kept(buddy.n, buddy.start, m, buddy.mem[..], Others()) && ObjectsKept(sh, c0, m, buddy.mem[..])
    {
      hide *;
      Names();
      ghost var t, s, v := buddy.mem[..], At(), value;
      HoldingIs();
      ReadyParts(sh, c0, c, slab);
      PromoteSame(sh, c0, c, slab);
      StillValidWith(buddy);
      var freeList := LoadFreeList(buddy.mem, slab, slabs);
      var head;
      o, head := Popped(buddy.mem, heads, slab, freeList, s, v, c0);
      ghost var t1 := buddy.mem[..];
      RecordedThen(t, t1, slabs);
      WithFreeIs(v, slab, head, v.free[slab][1..]);
      ExtendsThen(c0.slabs, v.slabs, WithFree(v, slab, head, v.free[slab][1..]).slabs);
      StoreFreeList(buddy.mem, slab, head, s, heads, WithFree(v, slab, head, v.free[slab][1..]), c0, slabs);
      DiscreetThen(s, OthersOf(s, v.slabs), c0, t, t1, buddy.mem[..]);
      slabs := slabs[slab := slabs[slab].(freeList := head)];
      value := WithFree(v, slab, head, v.free[slab][1..]);
      Names();
      DiscreetParts(s, OthersOf(s, v.slabs), c0, t, buddy.mem[..]);
      buddy.ValidAfterOwnedWrites(t);
      KeptThen(buddy.n, buddy.start, m, t, buddy.mem[..], Others());
      ObjectsKeptThen(sh, c0, m, t, buddy.mem[..]);
      TakenCounted(sh, c, slab, head);
      forall x: nat
        ensures !Live(sh, c0, o) && (Live(sh, value, x) <==> x == o || Live(sh, c0, x))
      {
        ObjectTaken(s, t, heads, c0, c, slab, head, x);
      }
      MakeServed(sh, c0, c, slab, head, value);
      LiveNotNull(s, buddy.mem[..], heads, value, o);
      MakeValid();
    }

    // The constructor of the object writes in it.
    method Construct(o: nat, image: seq<byte>, ghost c0: Cache, ghost m: seq<byte>)
      requires Valid() && Live(sh, value, o) && |image| <= sh.objSize
      requires !Live(sh, c0, o) && forall x: nat :: Live(sh, c0, x) ==> Live(sh, value, x)
      requires Kept(buddy.n, buddy.start, m, buddy.mem[..], Others()) && ObjectsKept(sh, c0, m, buddy.mem[..])
      modifies buddy.mem
      ensures Valid() && o + |image| <= buddy.mem.Length && buddy.mem[o..o + |image|] == image
      ensures Kept(buddy.n, buddy.start, m, buddy.mem[..], Others()) && ObjectsKept(sh, c0, m, buddy.mem[..])
    {
      hide *;
      Names();
      ghost var t, s, v := buddy.mem[..], At(), value;
      HoldingParts();
      StockedParts(s, t, heads, v);
      ObjectInMemory(s, t, heads, v, o);
      StillValidWith(buddy);
      WriteBytes(buddy.mem, o, image);
      ghost var t' := buddy.mem[..];
      OneObjectWritten(sh, v, t, t', o, |image|);
      WritesHarmless(s, t, heads, v, t');
      WritesOwned(s, t, heads, v, t');
      UsersKeepRecords(sh, v, t, t');
      RecordedThen(t, t', slabs);
      OtherObjectsKept(sh, c0, v, t, t', o, |image|);
      Names();
      buddy.ValidAfterOwnedWrites(t);
      KeptThen(buddy.n, buddy.start, m, t, t', Others());
      ObjectsKeptThen(sh, c0, m, t, t');
      MakeValid();
    }

    // A live object lies in the memory of one of the cache's slabs, in a live block nobody else holds.
    lemma LiveInOwnBlock(o: nat) returns (a: nat)
      requires Valid() && Live(sh, value, o)
      ensures a in slabs && slabs[a].memory <= o && o + sh.objSize <= slabs[a].memory + sh.slabSize
      ensures var p := Place(buddy.n, buddy.start);
              LiveAt(p, buddy.live, slabs[a].memory, order) && BlockAt(p, slabs[a].memory, order) !in Others()
    {
      hide *;
      Names();
      HoldingParts();
      StockedParts(At(), buddy.mem[..], heads, value);
      a := LiveWhere(sh, value, o);
      OutsideOthers(At(), slabs);
      OwnsMemory(At().p, buddy.live, home, order, sh, slabs, a, Others());
    }

    // Two live objects never overlap.
    lemma LiveObjectsApart(x: nat, y: nat)
      requires Valid() && Live(sh, value, x) && Live(sh, value, y) && x != y
      ensures ObjectsApart(sh, x, y)
    {
      hide *;
      Names();
      HoldingParts();
      StockedParts(At(), buddy.mem[..], heads, value);
      LiveApart(sh, value, |buddy.mem[..]|, x, y);
    }

    // The holder of a live object writes in it.
    method Overwrite(o: nat, image: seq<byte>)
      requires Valid() && Live(sh, value, o) && |image| <= sh.objSize
      modifies buddy.mem
      ensures Valid() && o + |image| <= buddy.mem.Length && buddy.mem[o..o + |image|] == image
      ensures forall x: nat :: Live(sh, value, x) && x != o ==>
              SameBytes(old(buddy.mem[..]), buddy.mem[..], x, x + sh.objSize)
      ensures Kept(buddy.n, buddy.start, old(buddy.mem[..]), buddy.mem[..], Others())
    {
      hide *;
      Names();
      ghost var t, s, v := buddy.mem[..], At(), value;
      HoldingParts();
      StockedParts(s, t, heads, v);
      ObjectInMemory(s, t, heads, v, o);
      StillValidWith(buddy);
      WriteBytes(buddy.mem, o, image);
      ghost var t' := buddy.mem[..];
      OneObjectWritten(sh, v, t, t', o, |image|);
      WritesHarmless(s, t, heads, v, t');
      WritesOwned(s, t, heads, v, t');
      UsersKeepRecords(sh, v, t, t');
      RecordedThen(t, t', slabs);
      Names();
      buddy.ValidAfterOwnedWrites(t);
      forall x: nat | Live(sh, v, x) && x != o
        ensures SameBytes(t, t', x, x + sh.objSize)
      {
        OneOtherKept(sh, v, t, t', o, |image|, x);
      }
      MakeValid();
    }

    // Byte o lies in the memory of slab a.
    ghost predicate InMemoryOf(a: nat, o: nat)
      requires a in slabs
      reads this
    {
      slabs[a].memory <= o < slabs[a].memory + sh.slabSize
    }

    // One of the two search loops: the last slab of the list whose memory holds o, else found.
    method Scan(list: nat, o: nat, found: nat, ghost l: seq<nat>) returns (target: nat)
      requires Linked(buddy.mem[..], 0, list, l) && Recorded(buddy.mem[..], slabs) && forall a :: a in l ==> a in slabs
      ensures target == found || (target in l && target in slabs && InMemoryOf(target, o))
      ensures forall a :: a in l && a in slabs && InMemoryOf(a, o) ==>
              target in l && target in slabs && InMemoryOf(target, o)
    {
      hide Linked, Le, Recorded;
      LinkedStep(buddy.mem[..], 0, list, l);
      target := found;
      var curr := list;
      ghost var before, rest := 0, l;
      while curr != 0
        invariant Linked(buddy.mem[..], before, curr, rest) && (curr == 0 <==> rest == []) &&
                  forall a :: a in rest ==> a in l
        invariant target == found || (target in l && target in slabs && InMemoryOf(target, o))
        invariant forall a :: a in l && a in slabs && InMemoryOf(a, o) ==>
                    a in rest || (target in l && target in slabs && InMemoryOf(target, o))
        decreases |rest|
      {
        LinkedStep(buddy.mem[..], before, curr, rest);
        var memory := LoadMemory(buddy.mem, curr, slabs);
        if memory <= o && o < memory + sh.slabSize {
          target := curr;
        }
        before, rest := curr, rest[1..];
        curr := Load64(buddy.mem, curr);
        LinkedStep(buddy.mem[..], before, curr, rest);
      }
    }

    // The slab on the partial or full list whose memory holds o; 0 when there is none.
    method FindSlab(o: nat) returns (target: nat)
      requires Holding()
      ensures target != 0 ==> target in slabs && InMemoryOf(target, o)
      ensures target == 0 <==> Unknown(o)
    {
      hide *;
      HoldingIs();
      ClassifiedLists(At(), buddy.mem[..], heads, value);
      HeadsAre(At(), buddy.mem[..], heads, value);
      target := Scan(heads.partial, o, 0, value.partial);
      target := Scan(heads.full, o, target, value.full);
      UnknownIs(o);
    }

    lemma UnknownIs(o: nat)
      ensures Unknown(o) <==> forall a :: (a in value.partial || a in value.full) && a in slabs ==> !InMemoryOf(a, o)
    {
    }

    // No slab that has objects in use holds o.
    ghost predicate Unknown(o: nat)
      reads this
    {
      forall a :: (a in value.partial || a in value.full) && a in slabs ==> !InMemoryOf(a, o)
    }

    // Gives back the live object o, or does nothing for an address no slab in use holds. The destructor
    // runs last and writes image into the object behind its two link words.
    method Free(o: nat, image: seq<byte>) returns (ghost slab: nat)
      requires Valid() && (Live(sh, value, o) || Unknown(o)) && 16 + |image| <= sh.objSize
      modifies this, buddy.mem
      ensures Valid() && Others() == old(Others())
      ensures forall x: nat :: Live(sh, value, x) <==> x != o && old(Live(sh, value, x))
      ensures old(Unknown(o)) ==> unchanged(this) && buddy.mem[..] == old(buddy.mem[..])
      ensures !old(Unknown(o)) ==> Returned(sh, old(value), slab, o, value)
      ensures !old(Unknown(o)) ==>
              o + 16 + |image| <= buddy.mem.Length && buddy.mem[o + 16..o + 16 + |image|] == image
      ensures Kept(buddy.n, buddy.start, old(buddy.mem[..]), buddy.mem[..], Others())
      ensures ObjectsKept(sh, value, old(buddy.mem[..]), buddy.mem[..])
    {
      hide *;
      Names();
      ghost var m, c := buddy.mem[..], value;
      HoldingParts();
      var target := FindSlab(o);
      slab := target;
      if target == 0 {
        UnknownNotLive(o);
        SameAround(buddy.n, buddy.start, sh, c, m, Others());
        return;
      }
      GiveObject(target, o);
      Destruct(target, o, image, m);
    }

    // The bookkeeping and the list_push for an object of slab target.
    method GiveObject(target: nat, o: nat)
      requires Valid() && Live(sh, value, o) && target in slabs && InMemoryOf(target, o)
      modifies this, buddy.mem
      ensures Valid() && Others() == old(Others()) && target in value.slabs && target in value.free &&
              IsSlot(sh, value.slabs[target].memory, o)
      ensures Returned(sh, old(value), target, o, value)
      ensures forall x: nat :: Live(sh, value, x) <==> x != o && old(Live(sh, value, x))
      ensures Kept(buddy.n, buddy.start, old(buddy.mem[..]), buddy.mem[..], Others())
      ensures ObjectsKept(sh, value, old(buddy.mem[..]), buddy.mem[..])
    {
      hide *;
      Names();
      ghost var t, s, c := buddy.mem[..], At(), value;
      HoldingParts();
      ghost var h := heads;
      ghost var c0 := OwnerOf(target, o);
      StillValidWith(buddy);
      ghost var v := Demote(sh, c, target);
      DemoteSame(sh, c, target);
      ExtendsThen(c0.slabs, c.slabs, v.slabs);
      CountDown(target, s, c, c0);
      ghost var t2 := buddy.mem[..];
      var freeList := LoadFreeList(buddy.mem, target, v.slabs);
      var head := Pushed(buddy.mem, heads, target, freeList, o, s, v, c0);
      ghost var t3 := buddy.mem[..];
      RecordedThen(t2, t3, v.slabs);
      DiscreetThen(s, OthersOf(s, c.slabs), c0, t, t2, t3);
      WithFreeIs(v, target, head, [o] + v.free[target]);
      ghost var c' := WithFree(v, target, head, [o] + v.free[target]);
      ExtendsThen(c0.slabs, v.slabs, c'.slabs);
      StoreFreeList(buddy.mem, target, head, s, heads, c', c0, v.slabs);
      DiscreetThen(s, OthersOf(s, c.slabs), c0, t, t3, buddy.mem[..]);
      slabs, value := c'.slabs, c';
      Names();
      DiscreetParts(s, OthersOf(s, c.slabs), c0, t, buddy.mem[..]);
      buddy.ValidAfterOwnedWrites(t);
      GivenCounted(sh, c, target, head, o);
      GivenBack(s, t, h, c, target, head, o, c0);
      SameObjectsKept(sh, c0, value, t, buddy.mem[..]);
      MakeReturned(sh, c, target, o, value);
      MakeValid();
    }

    // One object of slab target fewer is in use: a full slab becomes partial, the counter goes down, and a
    // slab without objects in use becomes empty, in this order.
    method CountDown(target: nat, ghost s: Site, ghost c: Cache, ghost c0: Cache)
      requires Stocked(s, buddy.mem[..], heads, c) && Recorded(buddy.mem[..], c.slabs) && s.sh == sh
      requires target in c.slabs && c.slabs[target].objCounter > 0 && Extends(c0.slabs, c.slabs)
      modifies this`heads, buddy.mem
      ensures Stocked(s, buddy.mem[..], heads, Demote(sh, c, target))
      ensures Recorded(buddy.mem[..], Demote(sh, c, target).slabs)
      ensures Discreet(s, OthersOf(s, c.slabs), c0, old(buddy.mem[..]), buddy.mem[..])
      ensures OthersOf(s, Demote(sh, c, target).slabs) == OthersOf(s, c.slabs)
    {
      hide *;
      ghost var t, l, others := buddy.mem[..], Loosened(sh, c, target), OthersOf(s, c.slabs);
      FieldsFit(s, t, heads, c, target);
      var n := LoadCounter(buddy.mem, target, c.slabs);
      heads := LeaveFull(buddy.mem, heads, target, n, sh.maxObjects, s, c, c0);
      ghost var t1 := buddy.mem[..];
      RecordedThen(t, t1, c.slabs);
      ExtendsThen(c0.slabs, c.slabs, l.slabs);
      StoreCounter(buddy.mem, target, n - 1, s, heads, l, c0, c.slabs);
      ghost var t2 := buddy.mem[..];
      DiscreetThen(s, others, c0, t, t1, t2);
      heads := JoinEmpty(buddy.mem, heads, target, n - 1, s, c, c0);
      ghost var t3 := buddy.mem[..];
      DiscreetThen(s, others, c0, t, t2, t3);
      DemoteSame(sh, c, target);
      SameKeysKept(l.slabs, Demote(sh, c, target).slabs, t2, t3);
      RecordedThen(t2, t3, Demote(sh, c, target).slabs);
    }

    // The slab that holds the live object o counts it; c0 is the state with o free.
    lemma OwnerOf(target: nat, o: nat) returns (c0: Cache)
      requires Valid() && Live(sh, value, o) && target in slabs && InMemoryOf(target, o)
      ensures target in value.slabs && target in value.free && slabs == value.slabs && slabs[target].objCounter > 0
      ensures IsSlot(sh, slabs[target].memory, o) && o !in value.free[target]
      ensures c0 == value.(free := value.free[target := [o] + value.free[target]])
      ensures Extends(c0.slabs, value.slabs) && FreeIn(c0.slabs, c0.free, target, [o] + value.free[target])
    {
      HoldingParts();
      ghost var a := LiveCounted(At(), buddy.mem[..], heads, value, o);
      OneSlabHere(At(), buddy.mem[..], heads, value, a, target, o);
      c0 := value.(free := value.free[target := [o] + value.free[target]]);
    }

    // The destructor of the freed object writes in it.
    method Destruct(target: nat, o: nat, image: seq<byte>, ghost m: seq<byte>)
      requires Valid() && target in value.slabs && target in value.free && IsSlot(sh, value.slabs[target].memory, o)
      requires 16 + |image| <= sh.objSize && !Live(sh, value, o)
      requires Kept(buddy.n, buddy.start, m, buddy.mem[..], Others()) && ObjectsKept(sh, value, m, buddy.mem[..])
      modifies buddy.mem
      ensures Valid() && o + 16 + |image| <= buddy.mem.Length && buddy.mem[o + 16..o + 16 + |image|] == image
      ensures Kept(buddy.n, buddy.start, m, buddy.mem[..], Others()) && ObjectsKept(sh, value, m, buddy.mem[..])
    {
      hide *;
      Names();
      ghost var t, s, v := buddy.mem[..], At(), value;
      HoldingParts();
      StillValidWith(buddy);
      SlotInMemory(s, t, heads, v, target, o);
      WriteBytes(buddy.mem, o + 16, image);
      ghost var t' := buddy.mem[..];
      TailWritten(s, t, heads, v, target, o, |image|, t');
      WritesHarmless(s, t, heads, v, t');
      WritesOwned(s, t, heads, v, t');
      StockedParts(s, t, heads, v);
      UsersKeepRecords(sh, v, t, t');
      RecordedThen(t, t', slabs);
      Names();
      buddy.ValidAfterOwnedWrites(t);
      KeptThen(buddy.n, buddy.start, m, t, t', Others());
      ObjectsKeptThen(sh, v, m, t, t');
      MakeValid();
    }

    // No live object lies where no slab in use does.
    lemma UnknownNotLive(o: nat)
      requires Valid() && Unknown(o)
      ensures !Live(sh, value, o)
    {
      HoldingParts();
      if Live(sh, value, o) {
        ghost var a := LiveCounted(At(), buddy.mem[..], heads, value, o);
        assert InMemoryOf(a, o);
      }
    }

    // Gives every empty slab back to the buddy allocator; the result is the number of bytes of their memory.
    method Shrink() returns (bytes: nat)
      requires Valid()
      modifies this, buddy, buddy.mem, buddy.bitmap, buddy.freeList
      ensures Valid() && Others() == old(Others())
      ensures value == Shrunk(old(value)) && bytes == |old(value.empty)| * sh.slabSize
      ensures forall x: nat :: Live(sh, value, x) <==> old(Live(sh, value, x))
      ensures Kept(buddy.n, buddy.start, old(buddy.mem[..]), buddy.mem[..], Others())
      ensures ObjectsKept(sh, value, old(buddy.mem[..]), buddy.mem[..])
    {
      hide *;
      ghost var m, c0 := buddy.mem[..], value;
      SameAround(buddy.n, buddy.start, sh, value, m, Others());
      HoldingParts();
      HeadsAre(At(), buddy.mem[..], heads, value);
      var freed := 0;
      while heads.empty != 0
        invariant Valid() && Others() == old(Others())
        invariant heads.empty == 0 <==> value.empty == []
        invariant Shrunk(value) == Shrunk(c0) && freed + |value.empty| == |c0.empty|
        invariant forall x: nat :: Live(sh, value, x) <==> old(Live(sh, value, x))
        invariant Kept(buddy.n, buddy.start, m, buddy.mem[..], Others()) && ObjectsKept(sh, value, m, buddy.mem[..])
        decreases |value.empty|
      {
        DropEmpty(m);
        HoldingParts();
        HeadsAre(At(), buddy.mem[..], heads, value);
        freed := freed + 1;
      }
      ShrunkEnd(value);
      bytes := freed * sh.slabSize;
    }

    // One pass of the shrinking loop; m is memory at the call of Shrink.
    method DropEmpty(ghost m: seq<byte>)
      requires Valid() && heads.empty != 0
      requires Kept(buddy.n, buddy.start, m, buddy.mem[..], Others()) && ObjectsKept(sh, value, m, buddy.mem[..])
      modifies this, buddy, buddy.mem, buddy.bitmap, buddy.freeList
      ensures Valid() && Others() == old(Others())
      ensures old(value).empty != [] && value == FirstDropped(old(value)) && Shrunk(value) == Shrunk(old(value))
      ensures |value.empty| == |old(value).empty| - 1
      ensures forall x: nat :: Live(sh, value, x) <==> old(Live(sh, value, x))
      ensures Kept(buddy.n, buddy.start, m, buddy.mem[..], Others()) && ObjectsKept(sh, value, m, buddy.mem[..])
    {
      hide *;
      Names();
      ghost var t, s, c, h := buddy.mem[..], At(), value, heads;
      HoldingParts();
      StillValidWith(buddy);
      var current, h1 := PopEmpty(buddy.mem, heads, s, c);
      ghost var t1, c1 := buddy.mem[..], c.(empty := c.empty[1..]);
      DiscreetParts(s, OthersOf(s, c.slabs), c, t, t1);
      buddy.ValidAfterOwnedWrites(t);
      RecordedThen(t, t1, slabs);
      KeptThen(buddy.n, buddy.start, m, t, t1, Others());
      ObjectsKeptThen(sh, c, m, t, t1);
      GiveLoose(current, h1, s, c1);
      KeptThen(buddy.n, buddy.start, m, t1, buddy.mem[..], Others());
      FirstDroppedIs(c);
      Names();
      heads, value := h1, FirstDropped(c);
      Names();
      DropFirst(s, t, h, c);
      SameObjectsKept(sh, c, value, m, t1);
      ObjectsKeptThen(sh, value, m, t1, buddy.mem[..]);
    }

    // The loose slab's memory and descriptor are given back; c is the cache with the slab.
    method GiveLoose(slab: nat, ghost h: Heads, ghost s: Site, ghost c: Cache)
      requires buddy.Valid() && s == At() && c.slabs == slabs && Loose(s, buddy.mem[..], h, c, slab) &&
               Recorded(buddy.mem[..], slabs)
      modifies this`slabs, buddy, buddy.mem, buddy.bitmap, buddy.freeList
      ensures buddy.Valid() && slabs == old(slabs) - {slab} && Recorded(buddy.mem[..], slabs)
      ensures Represents(sh, buddy.mem[..], h, Dropped(c, slab)) && Separate(buddy.live)
      ensures At() == s.(live := buddy.live) && Owns(At().p, buddy.live, home, order, sh, slabs) &&
              Others() == old(Others())
      ensures Kept(buddy.n, buddy.start, old(buddy.mem[..]), buddy.mem[..], Others())
      ensures ObjectsKept(sh, Dropped(c, slab), old(buddy.mem[..]), buddy.mem[..])
    {
      hide *;
      Names();
      ghost var t := buddy.mem[..];
      LooseAll(s, t, h, c, slab);
      LooseParts(s, t, h, c, slab);
      PairDistinct(s, slabs, slab, |t|);
      PairIs(s, slab, slabs[slab]);
      var memory := LoadMemory(buddy.mem, slab, slabs);
      GivePair(buddy, slab, memory, order);
      SlabDropped(s, t, h, c, slab, buddy.mem[..]);
      RecordsOfFewer(t, slabs, slabs - {slab});
      DroppedIs(c, slab);
      slabs := slabs - {slab};
      Names();
      OwnersKeepRecords(s.p, buddy.live, home, order, sh, slabs, t, buddy.mem[..]);
      RecordedThen(t, buddy.mem[..], slabs);
      FewerOthers(At(), slabs);
      KeptSubset(buddy.n, buddy.start, t, buddy.mem[..], buddy.live, Others());
      KeptObjects(s.p, buddy.live, home, order, sh, Dropped(c, slab), t, buddy.mem[..]);
    }

    // The cache without its first empty slab is sound and has the same live objects as c, stocked at s before.
    lemma DropFirst(s: Site, t: seq<byte>, h: Heads, c: Cache)
      requires buddy.Valid() && Stocked(s, t, h, c) && s.sh == sh && c.empty != [] && value == FirstDropped(c)
      requires Counted(sh, c.slabs, c.free) && slabs == value.slabs && At() == s.(live := buddy.live) &&
               Recorded(buddy.mem[..], slabs)
      requires Represents(sh, buddy.mem[..], heads, value) && Separate(buddy.live) &&
               Owns(s.p, buddy.live, home, order, sh, slabs)
      requires s.home == home && s.order == order
      ensures Valid() && forall x: nat :: Live(sh, value, x) <==> Live(sh, c, x)
    {
      hide *;
      Names();
      StockedParts(s, t, h, c);
      FirstDroppedClassified(sh, c);
      DroppedCounted(sh, c);
      MakeStocked(At(), buddy.mem[..], heads, value);
      forall x: nat
        ensures Live(sh, value, x) <==> Live(sh, c, x)
      {
        DroppedLive(s, t, h, c, x);
      }
      MakeValid();
    }

    // Gives everything back: the slabs of the full, the partial and the empty list, live objects or not,
    // and last the page of the cache itself.
    method Destroy()
      requires Valid()
      modifies this, buddy, buddy.mem, buddy.bitmap, buddy.freeList
      ensures buddy.Valid() && buddy.live == old(Others())
      ensures Kept(buddy.n, buddy.start, old(buddy.mem[..]), buddy.mem[..], buddy.live)
    {
      hide *;
      Names();
      ghost var m := buddy.mem[..];
      HoldingParts();
      var full, partial, empty := heads.full, heads.partial, heads.empty;
      ghost var c := value;
      StockedLeft(At(), m, heads, c);
      KeptSelf(buddy.n, buddy.start, m, Others());
      GiveAll(full, c.full, partial, c.partial, empty, c.empty, m);
      LeftNext(At(), buddy.mem[..], slabs, partial, c.partial, empty, c.empty);
      GiveAll(partial, c.partial, empty, c.empty, 0, [], m);
      LeftNext(At(), buddy.mem[..], slabs, empty, c.empty, 0, []);
      GiveAll(empty, c.empty, 0, [], 0, [], m);
      LeftNone(At(), buddy.mem[..], slabs);
      Names();
      LeftParts(At(), buddy.mem[..], slabs, 0, 0, [], 0, [], 0, []);
      OnlyHome(At(), slabs);
      ghost var t := buddy.mem[..];
      GiveBlock(buddy, home, 0);
      KeptThen(buddy.n, buddy.start, m, t, buddy.mem[..], buddy.live);
    }

    // The inner loop of kmem_cache_destroy over one of the lists; m is memory at the call of Destroy.
    method GiveAll(list: nat, ghost l: seq<nat>, ghost h1: nat, ghost u1: seq<nat>, ghost h2: nat, ghost u2: seq<nat>,
                   ghost m: seq<byte>)
      requires buddy.Valid() && Left(At(), buddy.mem[..], slabs, 0, list, l, h1, u1, h2, u2) &&
               Recorded(buddy.mem[..], slabs)
      requires Kept(buddy.n, buddy.start, m, buddy.mem[..], Others())
      modifies this`slabs, buddy, buddy.mem, buddy.bitmap, buddy.freeList
      ensures buddy.Valid() && Left(At(), buddy.mem[..], slabs, 0, 0, [], h1, u1, h2, u2) &&
              Recorded(buddy.mem[..], slabs)
      ensures Others() == old(Others()) && Kept(buddy.n, buddy.start, m, buddy.mem[..], Others())
    {
      hide *;
      var curr := list;
      ghost var before, rest := 0, l;
      LeftEnd(At(), buddy.mem[..], slabs, before, curr, rest, h1, u1, h2, u2);
      while curr != 0
        invariant buddy.Valid() && Left(At(), buddy.mem[..], slabs, before, curr, rest, h1, u1, h2, u2)
        invariant Recorded(buddy.mem[..], slabs)
        invariant curr == 0 <==> rest == []
        invariant curr == 0 ==> Left(At(), buddy.mem[..], slabs, 0, 0, [], h1, u1, h2, u2)
        invariant Others() == old(Others()) && Kept(buddy.n, buddy.start, m, buddy.mem[..], Others())
        decreases |rest|
      {
        ghost var was := curr;
        curr := GiveFirst(curr, before, rest, h1, u1, h2, u2, m);
        before, rest := was, rest[1..];
        LeftEnd(At(), buddy.mem[..], slabs, before, curr, rest, h1, u1, h2, u2);
      }
    }

    // Its body: the next pointer is read before the slab's blocks are given back.
    method GiveFirst(curr: nat, ghost before: nat, ghost l: seq<nat>, ghost h1: nat, ghost u1: seq<nat>, ghost h2: nat,
                     ghost u2: seq<nat>, ghost m: seq<byte>)
      returns (next: nat)
      requires buddy.Valid() && Left(At(), buddy.mem[..], slabs, before, curr, l, h1, u1, h2, u2) && curr != 0
      requires Recorded(buddy.mem[..], slabs)
      requires Kept(buddy.n, buddy.start, m, buddy.mem[..], Others())
      modifies this`slabs, buddy, buddy.mem, buddy.bitmap, buddy.freeList
      ensures l != [] && buddy.Valid() && Left(At(), buddy.mem[..], slabs, curr, next, l[1..], h1, u1, h2, u2)
      ensures Recorded(buddy.mem[..], slabs)
      ensures Others() == old(Others()) && Kept(buddy.n, buddy.start, m, buddy.mem[..], Others())
    {
      hide *;
      Names();
      ghost var t, s, was := buddy.mem[..], At(), slabs;
      LeftEnd(s, t, slabs, before, curr, l, h1, u1, h2, u2);
      LeftParts(s, t, slabs, before, curr, l, h1, u1, h2, u2);
      next := Load64(buddy.mem, curr);
      NextIs(t, curr);
      PairDistinct(s, slabs, curr, |t|);
      PairIs(s, curr, slabs[curr]);
      var memory := LoadMemory(buddy.mem, curr, slabs);
      GivePair(buddy, curr, memory, order);
      LeftDropped(s, t, slabs, before, curr, l, h1, u1, h2, u2, buddy.mem[..]);
      RecordsOfFewer(t, slabs, slabs - {curr});
      slabs := slabs - {curr};
      Names();
      LeftParts(At(), buddy.mem[..], slabs, curr, next, l[1..], h1, u1, h2, u2);
      OwnersKeepRecords(s.p, buddy.live, home, order, sh, slabs, t, buddy.mem[..]);
      RecordedThen(t, buddy.mem[..], slabs);
      FewerOthers(At(), slabs);
      KeptSubset(buddy.n, buddy.start, t, buddy.mem[..], buddy.live, Others());
      KeptThen(buddy.n, buddy.start, m, t, buddy.mem[..], Others());
    }

    lemma HoldingParts()
      requires Valid()
      ensures buddy.Valid() && Holding() && value.slabs == slabs && Counted(sh, slabs, value.free)
      ensures Stocked(At(), buddy.mem[..], heads, value) && Recorded(buddy.mem[..], slabs)
      ensures ShapeOk(sh) && sh.slabSize == 4096 * Pow2(order) && Separate(buddy.live)
      ensures buddy.ValidWith(buddy.mem[..])
    {
    }

    lemma MakeValid()
      requires buddy.Valid() && value.slabs == slabs && Counted(sh, slabs, value.free)
      requires Stocked(At(), buddy.mem[..], heads, value) && Recorded(buddy.mem[..], slabs)
      ensures Valid()
    {
    }

    // The last of the partial slabs with the most objects in use.
    method Fullest() returns (slab: nat)
      requires Holding() && heads.partial != 0
      ensures slab in value.partial && Chosen(value, slab)
    {
      hide *;
      HoldingIs();
      ClassifiedLists(At(), buddy.mem[..], heads, value);
      HeadsAre(At(), buddy.mem[..], heads, value);
      var curr := heads.partial;
      var maxObj := LoadCounter(buddy.mem, heads.partial, slabs);
      slab := 0;
      ghost var l, before, done, found := value.partial, 0, 0, 0;
      LinkedStep(buddy.mem[..], before, curr, l);
      NoneScanned(slabs, l, maxObj);
      assert l[0..] == l;
      while curr != 0
        invariant done <= |l| && Linked(buddy.mem[..], before, curr, l[done..]) && (curr == 0 <==> done == |l|)
        invariant Scanned(slabs, l, done, slab, found, maxObj)
        decreases |l| - done
      {
        LinkedStep(buddy.mem[..], before, curr, l[done..]);
        DropOne(l, done);
        var counter := LoadCounter(buddy.mem, curr, slabs);
        OneScanned(slabs, l, done, slab, found, maxObj);
        if counter >= maxObj {
          maxObj := counter;
          slab := curr;
          found := done;
        }
        NextIs(buddy.mem[..], curr);
        before, done := curr, done + 1;
        curr := Load64(buddy.mem, curr);
        LinkedStep(buddy.mem[..], before, curr, l[done..]);
      }
      AllScanned(value, slab, found, maxObj);
    }
  }
}
