// The whole heap in use: small buffers, any number of caches and their objects, and pages straight from the
// buddy allocator are asked for, written in and given back in any order. Nobody ever disturbs anybody, and
// when everything is given back the heap is what it was.
module HeapSession {
  import opened Sequences
  import opened Powers
  import opened BuddyBlocks
  import BuddySpec
  import opened BuddyMemory
  import opened BuddyBits
  import opened Buddy
  import opened Memory64
  import opened SlabSpec
  import opened SlabMemory
  import opened SlabBlocks
  import opened SlabLive
  import opened SlabSupply
  import opened Slab
  import opened SlabLifetime
  import opened Kmalloc
  import opened HeapHoldings
  import opened HeapEffects

  // ----- small buffers

  // The objects in use, of all classes. The class of an object is the byte it starts with.
  ghost function Used(small: SmallBuffers): iset<nat>
    reads small, small.buffers
  {
    iset o: nat | IsUsed(small, o)
  }

  ghost predicate IsUsed(small: SmallBuffers, o: nat)
    reads small, small.buffers
  {
    exists j: nat :: small.InUse(j, o)
  }

  // An object in use has one class, the byte it starts with.
  lemma UsedClass(small: SmallBuffers, o: nat) returns (j: nat)
    requires small.Valid() && o in Used(small)
    ensures small.InUse(j, o) && o < small.buddy.mem.Length && small.buddy.mem[o] as nat == j < 13
    ensures forall k: nat :: small.InUse(k, o) ==> k == j
  {
    hide *;
    j := SomeClass(small, o);
    small.HeaderNamesClass(j, o);
    forall k: nat | small.InUse(k, o)
      ensures k == j
    {
      small.HeaderNamesClass(k, o);
    }
  }

  lemma SomeClass(small: SmallBuffers, o: nat) returns (j: nat)
    requires o in Used(small)
    ensures small.InUse(j, o)
  {
    hide SmallBuffers.InUse;
    j :| small.InUse(j, o);
  }

  lemma UsedIs(small: SmallBuffers)
    ensures forall j: nat, o: nat :: small.InUse(j, o) ==> o in Used(small)
    ensures forall o: nat :: o in Used(small) <==> exists j: nat :: small.InUse(j, o)
  {
    hide SmallBuffers.InUse;
  }

  // Every object in use is one of the class it starts with.
  lemma AllClassed(small: SmallBuffers)
    requires small.Valid()
    ensures forall o: nat :: o in Used(small) ==>
              o < small.buddy.mem.Length && small.buddy.mem[o] < 13 && small.InUse(small.buddy.mem[o], o)
    ensures forall o: nat, j: nat :: small.InUse(j, o) ==>
              o in Used(small) && o < small.buddy.mem.Length && small.buddy.mem[o] as nat == j
  {
    hide *;
    UsedIs(small);
    forall o: nat | o in Used(small)
      ensures o < small.buddy.mem.Length && small.buddy.mem[o] < 13 && small.InUse(small.buddy.mem[o], o)
    {
      var j := UsedClass(small, o);
    }
    forall o: nat, j: nat | small.InUse(j, o)
      ensures o < small.buddy.mem.Length && small.buddy.mem[o] as nat == j
    {
      small.HeaderNamesClass(j, o);
    }
  }

  lemma MakeObjectKept(m: seq<byte>, t: seq<byte>, o: nat)
    requires o < |m| && SameBytes(m, t, o, o + 32 * Pow2(m[o]))
    ensures ObjectKept(m, t, o)
  {
    hide SameBytes;
  }

  // ----- blocks

  // All blocks of the small buffers.
  ghost function HeldAll(small: SmallBuffers): set<nat>
    requires |small.buffers| == 13
    reads small, small.buffers, small.buddy
  {
    set j, x | 0 <= j < 13 && x in small.Held(j) :: x
  }

  lemma HeldAllIs(small: SmallBuffers)
    requires small.Valid()
    ensures |small.buffers| == 13 && HeldAll(small) <= small.buddy.live
    ensures small.Foreign() == small.buddy.live - HeldAll(small)
    ensures forall j: nat :: j < 13 ==> small.Held(j) <= HeldAll(small)
  {
    hide SmallBuffers.Valid, SmallBuffers.Held;
    small.Thirteen();
    forall j: nat | j < 13
      ensures small.Held(j) <= small.buddy.live
    {
      HeldLive(small, j);
    }
    forall x
      ensures x in small.Foreign() <==> x in small.buddy.live - HeldAll(small)
    {
    }
  }

  twostate lemma SameHeld(small: SmallBuffers)
    requires |small.buffers| == 13 && old(|small.buffers|) == 13
    requires forall j: nat :: j < 13 ==> small.Held(j) == old(small.Held(j))
    ensures HeldAll(small) == old(HeldAll(small))
  {
    hide SmallBuffers.Held;
    forall x
      ensures x in HeldAll(small) <==> x in old(HeldAll(small))
    {
      if x in HeldAll(small) {
        var j :| 0 <= j < 13 && x in small.Held(j);
        assert x in old(small.Held(j));
      }
      if x in old(HeldAll(small)) {
        var j :| 0 <= j < 13 && x in old(small.Held(j));
        assert x in small.Held(j);
      }
    }
  }

  // The blocks of a cache.
  ghost function CacheBlocks(cache: KmemCache): set<nat>
    reads cache
  {
    Blocks(Place(cache.buddy.n, cache.buddy.start), cache.home, cache.order, cache.slabs)
  }

  lemma CacheBlocksAre(cache: KmemCache)
    ensures CacheBlocks(cache) == HeldBlocks(cache.At(), cache.slabs)
  {
  }

  twostate lemma OldBlocksAre(cache: KmemCache)
    ensures old(CacheBlocks(cache)) == old(HeldBlocks(cache.At(), cache.slabs))
  {
  }

  lemma OthersAre(cache: KmemCache)
    requires cache.Valid()
    ensures CacheBlocks(cache) <= cache.buddy.live && cache.Others() == cache.buddy.live - CacheBlocks(cache)
  {
    hide *;
    HeldOrOthers(cache);
    CacheBlocksAre(cache);
  }

  ghost function Parts(caches: seq<KmemCache>): (s: seq<set<nat>>)
    reads caches
    ensures |s| == |caches| && forall i :: 0 <= i < |s| ==> s[i] == CacheBlocks(caches[i])
  {
    if caches == [] then [] else [CacheBlocks(caches[0])] + Parts(caches[1..])
  }

  lemma PartsAre(caches: seq<KmemCache>, parts: seq<set<nat>>)
    requires |parts| == |caches| && forall i :: 0 <= i < |parts| ==> parts[i] == CacheBlocks(caches[i])
    ensures Parts(caches) == parts
  {
  }

  lemma HeldLive(small: SmallBuffers, j: nat)
    requires small.Valid() && j < 13 && j < |small.buffers|
    ensures small.Held(j) <= small.buddy.live
  {
    hide *;
    small.Thirteen();
    if small.buffers[j] == null {
      small.NullFacts(j);
    } else {
      small.CacheFacts(j);
      HeldOrOthers(small.buffers[j]);
      HeldIsBlocks(small, j);
    }
  }

  lemma HeldIsBlocks(small: SmallBuffers, j: nat)
    requires j < |small.buffers| && small.buffers[j] != null && small.buffers[j].buddy == small.buddy
    ensures small.Held(j) == HeldBlocks(small.buffers[j].At(), small.buffers[j].slabs)
  {
    hide HeldBlocks;
  }

  // ----- caches

  // A cache is what its users take it for, and its live objects are those they hold, with their contents.
  ghost predicate KitIn(cache: KmemCache, kit: Kit, m: seq<byte>)
    reads cache
  {
    && cache.home == kit.home && cache.sh == ShapeFor(kit.size) && cache.order == SlabOrder(kit.size)
    && InHand(cache.sh, Client(cache.value, kit.held), m)
  }

  lemma KitParts(cache: KmemCache, kit: Kit, m: seq<byte>)
    requires KitIn(cache, kit, m)
    ensures cache.home == kit.home && cache.sh == ShapeFor(kit.size) && cache.order == SlabOrder(kit.size)
    ensures cache.sh.objSize == ObjectSize(kit.size) && InHand(cache.sh, Client(cache.value, kit.held), m)
  {
    hide InHand;
  }

  lemma MakeKitIn(cache: KmemCache, kit: Kit, m: seq<byte>)
    requires cache.home == kit.home && cache.sh == ShapeFor(kit.size) && cache.order == SlabOrder(kit.size)
    requires InHand(cache.sh, Client(cache.value, kit.held), m)
    ensures KitIn(cache, kit, m)
  {
    hide InHand, SlabOrder, ShapeFor;
  }

  twostate lemma KitBefore(v: (KmemCache, Kit))
    requires old(KitIn(v.0, v.1, v.0.buddy.mem[..])) && SameCache(v.0)
    ensures KitIn(v.0, v.1, old(v.0.buddy.mem[..]))
  {
    hide InHand, SlabOrder, ShapeFor;
  }

  twostate lemma MakeSame(d: KmemCache)
    requires d.heads == old(d.heads) && d.slabs == old(d.slabs) && d.value == old(d.value)
    ensures SameCache(d)
  {
  }

  // A cache none of whose blocks, which are among v.2, changed a byte.
  twostate lemma CacheAtRest(v: (KmemCache, Kit, set<nat>))
    requires v.0.buddy.Valid() && old(v.0.Valid()) && SameCache(v.0) && old(KitIn(v.0, v.1, v.0.buddy.mem[..]))
    requires old(CacheBlocks(v.0)) <= v.2 <= v.0.buddy.live
    requires Kept(v.0.buddy.n, v.0.buddy.start, old(v.0.buddy.mem[..]), v.0.buddy.mem[..], v.2)
    ensures v.0.Valid() && CacheBlocks(v.0) == old(CacheBlocks(v.0)) && KitIn(v.0, v.1, v.0.buddy.mem[..])
  {
    hide *;
    ghost var d, kit, m := v.0, v.1, old(v.0.buddy.mem[..]);
    OldBlocksAre(d);
    KeptSubset(d.buddy.n, d.buddy.start, m, d.buddy.mem[..], v.2, old(CacheBlocks(d)));
    Undisturbed(d);
    CacheBlocksAre(d);
    KitBefore((d, kit));
    KitParts(d, kit, m);
    InHandKept(d.sh, Client(d.value, kit.held), m, d.value, d.buddy.mem[..]);
    MakeKitIn(d, kit, d.buddy.mem[..]);
  }

  // ----- one event at a time

  function Ground(small: SmallBuffers): Place {
    Place(small.buddy.n, small.buddy.start)
  }

  lemma GroundIs(small: SmallBuffers)
    ensures Ground(small) == Place(small.buddy.n, small.buddy.start)
  {
  }

  // The cache is sound, none of the buffers', and what its users take it for.
  ghost predicate CacheOk(small: SmallBuffers, cache: KmemCache, kit: Kit)
    reads small, cache, small.buddy, small.buddy.mem, small.buddy.bitmap, small.buddy.freeList
  {
    cache.buddy == small.buddy && cache.Valid() && cache !in small.buffers && KitIn(cache, kit, small.buddy.mem[..])
  }

  lemma CacheOkParts(small: SmallBuffers, cache: KmemCache, kit: Kit)
    requires CacheOk(small, cache, kit)
    ensures cache.buddy == small.buddy && cache.Valid() && cache !in small.buffers
    ensures KitIn(cache, kit, small.buddy.mem[..])
  {
    hide KmemCache.Valid, KitIn;
  }

  lemma MakeCacheOk(small: SmallBuffers, cache: KmemCache, kit: Kit)
    requires cache.buddy == small.buddy && cache.Valid() && cache !in small.buffers
    requires KitIn(cache, kit, small.buddy.mem[..])
    ensures CacheOk(small, cache, kit)
  {
    hide KmemCache.Valid, KitIn;
  }

  predicate Distinct(caches: seq<KmemCache>) {
    forall i, k :: 0 <= i < k < |caches| ==> caches[i] != caches[k]
  }

  ghost predicate CachesOk(small: SmallBuffers, caches: seq<KmemCache>, kits: seq<Kit>)
    reads small, caches, small.buddy, small.buddy.mem, small.buddy.bitmap, small.buddy.freeList
  {
    && |kits| == |caches| && Distinct(caches)
    && forall i: nat :: i < |caches| ==> CacheOk(small, caches[i], kits[i])
  }

  // Everything the users hold is theirs alone and holds what they last wrote in it; they hold every live
  // buffer and object, and all live blocks but the rest are the buffers', the caches' and the pages'.
  ghost predicate InOrder(small: SmallBuffers, caches: seq<KmemCache>, w: Holdings, rest: set<nat>)
    reads small, small.buffers, caches, small.buddy, small.buddy.mem, small.buddy.bitmap, small.buddy.freeList
  {
    && small.Valid() && CachesOk(small, caches, w.kits)
    && Divided(small.Foreign(), Parts(caches), Nodes(Ground(small), w.pages), rest)
    && ChunksIn(small.buddy.mem[..], Used(small), w.chunks)
    && PagesIn(Ground(small), small.buddy.live, small.buddy.mem[..], w.pages)
  }

  lemma InOrderParts(small: SmallBuffers, caches: seq<KmemCache>, w: Holdings, rest: set<nat>)
    requires InOrder(small, caches, w, rest)
    ensures small.Valid() && |w.kits| == |caches|
    ensures Distinct(caches) && forall i: nat :: i < |caches| ==> CacheOk(small, caches[i], w.kits[i])
    ensures Divided(small.Foreign(), Parts(caches), Nodes(Ground(small), w.pages), rest)
    ensures ChunksIn(small.buddy.mem[..], Used(small), w.chunks)
    ensures PagesIn(Ground(small), small.buddy.live, small.buddy.mem[..], w.pages)
  {
    hide SmallBuffers.Valid, KmemCache.Valid, Divided, Parts, Nodes, ChunksIn, Used, CacheOk, PagesIn, Ground, Distinct;
    hide SmallBuffers.Foreign;
  }

  lemma MakeInOrder(small: SmallBuffers, caches: seq<KmemCache>, w: Holdings, rest: set<nat>)
    requires small.Valid() && |w.kits| == |caches| && Distinct(caches)
    requires forall i: nat :: i < |caches| ==> CacheOk(small, caches[i], w.kits[i])
    requires Divided(small.Foreign(), Parts(caches), Nodes(Ground(small), w.pages), rest)
    requires ChunksIn(small.buddy.mem[..], Used(small), w.chunks)
    requires PagesIn(Ground(small), small.buddy.live, small.buddy.mem[..], w.pages)
    ensures InOrder(small, caches, w, rest)
  {
    hide SmallBuffers.Valid, KmemCache.Valid, Divided, Parts, Nodes, ChunksIn, Used, CacheOk, PagesIn, Ground, Distinct;
    hide SmallBuffers.Foreign;
  }

  lemma CachesThere(small: SmallBuffers, caches: seq<KmemCache>, kits: seq<Kit>)
    requires |kits| == |caches| && Distinct(caches)
    requires forall i: nat :: i < |caches| ==> CacheOk(small, caches[i], kits[i])
    ensures forall i: nat :: i < |caches| ==>
              && caches[i].buddy == small.buddy && caches[i].Valid() && caches[i] !in small.buffers
              && KitIn(caches[i], kits[i], small.buddy.mem[..])
    ensures forall i, k :: 0 <= i < |caches| && 0 <= k < |caches| && i != k ==> caches[i] != caches[k]
  {
    hide CacheOk, KmemCache.Valid, KitIn;
    forall i: nat | i < |caches|
      ensures caches[i].buddy == small.buddy && caches[i].Valid() && caches[i] !in small.buffers
      ensures KitIn(caches[i], kits[i], small.buddy.mem[..])
    {
      CacheOkParts(small, caches[i], kits[i]);
    }
  }

  // What order means for the blocks.
  lemma Before(small: SmallBuffers, caches: seq<KmemCache>, w: Holdings, rest: set<nat>)
    requires InOrder(small, caches, w, rest)
    ensures |small.buffers| == 13 && small.buddy.Valid() && 8 <= small.buddy.n
    ensures HeldAll(small) <= small.buddy.live && small.Foreign() == small.buddy.live - HeldAll(small)
    ensures forall j: nat :: j < 13 ==> small.Held(j) <= HeldAll(small)
    ensures forall i: nat :: i < |caches| ==>
              CacheBlocks(caches[i]) <= small.Foreign() && CacheBlocks(caches[i]) !! rest
    ensures forall i, k :: 0 <= i < |caches| && 0 <= k < |caches| && i != k ==>
              CacheBlocks(caches[i]) !! CacheBlocks(caches[k])
    ensures rest <= small.Foreign()
    ensures var nodes := Nodes(Ground(small), w.pages);
            && (forall x: nat :: x in nodes ==> x in small.Foreign() && x !in rest)
            && (forall i, x: nat :: 0 <= i < |caches| && x in nodes ==> x !in CacheBlocks(caches[i]))
  {
    hide *;
    InOrderParts(small, caches, w, rest);
    HeldAllIs(small);
    small.Thirteen();
    DividedParts(small.Foreign(), Parts(caches), Nodes(Ground(small), w.pages), rest);
    PartsThere(caches);
  }

  lemma PartsThere(caches: seq<KmemCache>)
    ensures |Parts(caches)| == |caches| && forall i :: 0 <= i < |caches| ==> Parts(caches)[i] == CacheBlocks(caches[i])
  {
    hide CacheBlocks;
  }

  // A chunk, its object and the class of it.
  lemma ChunkObject(small: SmallBuffers, chunks: seq<Chunk>, i: nat) returns (j: nat)
    requires small.Valid() && ChunksIn(small.buddy.mem[..], Used(small), chunks) && i < |chunks|
    ensures chunks[i].at > 0 && small.InUse(j, chunks[i].at - 1) && chunks[i].size + 1 <= 32 * Pow2(j)
  {
    hide *;
    ChunkFacts(small.buddy.mem[..], Used(small), chunks, i);
    j := UsedClass(small, chunks[i].at - 1);
    ChunkFits(small.buddy.mem[..], Used(small), chunks[i]);
  }

  lemma ChunkFits(m: seq<byte>, u: iset<nat>, c: Chunk)
    requires ChunkIn(m, u, c)
    ensures c.size + 1 <= 32 * Pow2(m[c.at - 1])
  {
  }

  // The buffers were not at work: what is in use is the same, byte for byte.
  twostate lemma BuffersAtRest(small: SmallBuffers)
    requires old(small.Valid()) && small.Valid() && |small.buffers| == 13 && old(|small.buffers|) == 13
    requires forall j: nat :: j < 13 ==> small.Calm(j)
    requires old(forall o: nat :: o in Used(small) ==>
              o < small.buddy.mem.Length && small.buddy.mem[o] < 13 && small.InUse(small.buddy.mem[o], o))
    requires old(forall o: nat, j: nat :: small.InUse(j, o) ==>
              o in Used(small) && o < small.buddy.mem.Length && small.buddy.mem[o] as nat == j)
    ensures Used(small) == old(Used(small))
    ensures forall o: nat :: o in Used(small) ==> ObjectKept(old(small.buddy.mem[..]), small.buddy.mem[..], o)
    ensures HeldAll(small) == old(HeldAll(small))
  {
    hide *;
    AllClassed(small);
    forall j: nat | j < 13
      ensures small.Held(j) == old(small.Held(j))
    {
      small.CalmParts(j);
    }
    SameHeld(small);
    forall o: nat
      ensures o in Used(small) <==> o in old(Used(small))
      ensures o in Used(small) ==> ObjectKept(old(small.buddy.mem[..]), small.buddy.mem[..], o)
    {
      if o in Used(small) {
        small.CalmUse((small.buddy.mem[o], o));
        MakeObjectKept(old(small.buddy.mem[..]), small.buddy.mem[..], o);
      }
      if o in old(Used(small)) {
        small.CalmUse((old(small.buddy.mem[o]), o));
      }
    }
  }

  // Nobody touched the buffers.
  twostate lemma SameBuffers(small: SmallBuffers)
    requires |small.buffers| == 13 && small.buffers == old(small.buffers)
    requires forall c :: c in small.buffers && c != null ==>
               c.heads == old(c.heads) && c.slabs == old(c.slabs) && c.value == old(c.value)
    ensures forall j: nat :: j < 13 ==> SameCache(small.buffers[j])
    ensures BuffersIdle(small)
  {
    MakeBuffersIdle(small);
    forall j: nat | j < 13
      ensures SameCache(small.buffers[j])
    {
      assert small.buffers[j] in small.buffers;
    }
  }

  method DoMalloc(small: SmallBuffers, caches: seq<KmemCache>, w: Holdings, ghost rest: set<nat>, size: nat)
    returns (r: nat)
    requires InOrder(small, caches, w, rest) && size <= 131071
    modifies small, small.buffers, small.buddy, small.buddy.mem, small.buddy.bitmap, small.buddy.freeList
    ensures InOrder(small, caches, After(w, Malloc(size), r), rest)
    ensures Kept(small.buddy.n, small.buddy.start, old(small.buddy.mem[..]), small.buddy.mem[..], rest)
    ensures r == 0 ==> exists j: nat :: Adequate(size + 1, j) && !small.Available(j)
    ensures Mallocs(small, size, r)
    ensures forall c :: c in small.buffers && c != null ==> c in old(small.buffers) || fresh(c)
    ensures CachesIdle(caches, -1)
  {
    hide *;
    InOrderParts(small, caches, w, rest);
    Before(small, caches, w, rest);
    AllClassed(small);
    ghost var m, u, live, parts := small.buddy.mem[..], Used(small), small.buddy.live, Parts(caches);
    PartsThere(caches);
    CachesThere(small, caches, w.kits);
    ghost var j;
    r, j := small.Kmalloc(size);
    MakeMallocs((small, size, r, j));
    MakeCachesIdle((caches, -1));
    ghost var t := small.buddy.mem[..];
    HeldAllIs(small);
    small.Thirteen();
    forall i: nat | i < |caches|
      ensures CacheOk(small, caches[i], w.kits[i]) && CacheBlocks(caches[i]) == parts[i]
    {
      MakeSame(caches[i]);
      CacheAtRest((caches[i], w.kits[i], small.Foreign()));
      MakeCacheOk(small, caches[i], w.kits[i]);
    }
    PartsAre(caches, parts);
    GroundIs(small);
    PagesStay(Ground(small), live, m, small.buddy.live, t, small.Foreign(), w.pages);
    KeptSubset(small.buddy.n, small.buddy.start, m, t, small.Foreign(), rest);
    AllClassed(small);
    forall o: nat | o in u
      ensures ObjectKept(m, t, o)
    {
      MakeObjectKept(m, t, o);
    }
    if r == 0 {
      assert Used(small) == u;
      ChunksStay(m, u, t, w.chunks);
    } else {
      assert small.InUse(j, r - 1);
      assert Used(small) == u + iset{r - 1};
      ChunkAdded(m, u, t, Used(small), w.chunks, r, size);
    }
    AfterMalloc(w, size, r);
    MakeInOrder(small, caches, After(w, Malloc(size), r), rest);
  }

  lemma AfterMalloc(w: Holdings, size: nat, r: nat)
    ensures After(w, Malloc(size), r) == if r == 0 then w else w.(chunks := [Chunk(r, size, [])] + w.chunks)
  {
  }

  method DoFree(small: SmallBuffers, caches: seq<KmemCache>, w: Holdings, ghost rest: set<nat>, i: nat)
    requires InOrder(small, caches, w, rest) && i < |w.chunks|
    modifies small.buffers, small.buddy.mem
    ensures InOrder(small, caches, w.(chunks := CutAt(w.chunks, i)), rest)
    ensures Kept(small.buddy.n, small.buddy.start, old(small.buddy.mem[..]), small.buddy.mem[..], rest)
    ensures Frees(small, w.chunks[i].at)
    ensures CachesIdle(caches, -1)
  {
    hide *;
    InOrderParts(small, caches, w, rest);
    Before(small, caches, w, rest);
    AllClassed(small);
    ghost var m, u, live, parts := small.buddy.mem[..], Used(small), small.buddy.live, Parts(caches);
    PartsThere(caches);
    CachesThere(small, caches, w.kits);
    ghost var j := ChunkObject(small, w.chunks, i);
    small.Kfree(w.chunks[i].at, j);
    MakeFrees((small, w.chunks[i].at, j));
    MakeCachesIdle((caches, -1));
    ghost var t := small.buddy.mem[..];
    HeldAllIs(small);
    small.Thirteen();
    forall k: nat | k < |caches|
      ensures CacheOk(small, caches[k], w.kits[k]) && CacheBlocks(caches[k]) == parts[k]
    {
      MakeSame(caches[k]);
      CacheAtRest((caches[k], w.kits[k], small.Foreign()));
      MakeCacheOk(small, caches[k], w.kits[k]);
    }
    PartsAre(caches, parts);
    GroundIs(small);
    PagesStay(Ground(small), live, m, small.buddy.live, t, small.Foreign(), w.pages);
    KeptSubset(small.buddy.n, small.buddy.start, m, t, small.Foreign(), rest);
    AllClassed(small);
    forall o: nat | o in Used(small)
      ensures ObjectKept(m, t, o)
    {
      assert small.InUse(t[o], o);
      MakeObjectKept(m, t, o);
    }
    ChunkRemoved(m, u, t, Used(small), w.chunks, i);
    CutIs(w.chunks, i);
    MakeInOrder(small, caches, w.(chunks := CutAt(w.chunks, i)), rest);
  }

  method DoFill(small: SmallBuffers, caches: seq<KmemCache>, w: Holdings, ghost rest: set<nat>, i: nat,
                image: seq<byte>)
    requires InOrder(small, caches, w, rest) && i < |w.chunks| && |image| <= w.chunks[i].size
    modifies small.buddy.mem
    ensures InOrder(small, caches, w.(chunks := Written(w.chunks, i, image)), rest)
    ensures Kept(small.buddy.n, small.buddy.start, old(small.buddy.mem[..]), small.buddy.mem[..], rest)
    ensures BuffersIdle(small) && CachesIdle(caches, -1)
  {
    hide *;
    InOrderParts(small, caches, w, rest);
    Before(small, caches, w, rest);
    AllClassed(small);
    ghost var m, u, live, parts := small.buddy.mem[..], Used(small), small.buddy.live, Parts(caches);
    PartsThere(caches);
    CachesThere(small, caches, w.kits);
    ghost var j := ChunkObject(small, w.chunks, i);
    small.Fill(w.chunks[i].at, image, j);
    MakeBuffersIdle(small);
    MakeCachesIdle((caches, -1));
    ghost var t := small.buddy.mem[..];
    HeldAllIs(small);
    small.Thirteen();
    forall k: nat | k < |caches|
      ensures CacheOk(small, caches[k], w.kits[k]) && CacheBlocks(caches[k]) == parts[k]
    {
      MakeSame(caches[k]);
      CacheAtRest((caches[k], w.kits[k], small.Foreign()));
      MakeCacheOk(small, caches[k], w.kits[k]);
    }
    PartsAre(caches, parts);
    GroundIs(small);
    PagesStay(Ground(small), live, m, small.buddy.live, t, small.Foreign(), w.pages);
    KeptSubset(small.buddy.n, small.buddy.start, m, t, small.Foreign(), rest);
    AllClassed(small);
    forall o: nat | o in u && o + 1 != w.chunks[i].at
      ensures ObjectKept(m, t, o)
    {
      MakeObjectKept(m, t, o);
    }
    assert Used(small) == u;
    ChunkFilled(m, u, t, w.chunks, i, image);
    WrittenIs(w.chunks, i, image);
    MakeInOrder(small, caches, w.(chunks := Written(w.chunks, i, image)), rest);
  }

  lemma AnsweredHeld(sh: Shape, c: Client, q: Request, r: nat, c': Client)
    requires Answered(sh, c, q, r, c')
    ensures c'.held == HeldAfter(c.held, q, r, sh.objSize)
    ensures q.Get? && |q.image| <= sh.objSize ==> r != 0
  {
  }

  lemma NotAnswered(held: seq<Held>, q: Request, objSize: nat)
    requires q.Get?
    ensures HeldAfter(held, q, 0, objSize) == held
  {
  }

  lemma AskedIs(kits: seq<Kit>, i: nat, q: Request, r: nat)
    requires i < |kits|
    ensures Asked(kits, i, q, r) ==
            kits[i := kits[i].(held := HeldAfter(kits[i].held, q, r, ObjectSize(kits[i].size)))]
  {
  }

  // The blocks foreign to the buffers, when a cache has other blocks than before and nobody else has.
  lemma ForeignAfter(live: set<nat>, taken: set<nat>, foreign: set<nat>, part: set<nat>, part': set<nat>,
                     live': set<nat>, foreign': set<nat>)
    requires taken <= live && foreign == live - taken && part <= foreign && foreign' == live' - taken
    requires live' - part' == live - part && part' <= live'
    ensures foreign' == foreign - part + part' && part' !! foreign - part
  {
    forall x
      ensures x in taken ==> x !in part'
      ensures x in live' - part' <==> x in live - part
    {
      assert x in taken ==> x in live - part;
    }
    assert foreign' == foreign - part + part';
  }

  lemma ForeignMore(live: set<nat>, taken: set<nat>, foreign: set<nat>, part: set<nat>, live': set<nat>,
                    foreign': set<nat>)
    requires taken <= live && foreign == live - taken && foreign' == live' - taken
    requires live' - part == live && part <= live'
    ensures foreign' == foreign + part && part !! foreign
  {
    ForeignAfter(live, taken, foreign, {}, part, live', foreign');
    assert foreign - {} == foreign;
  }

  lemma ForeignLess(live: set<nat>, taken: set<nat>, foreign: set<nat>, part: set<nat>, live': set<nat>,
                    foreign': set<nat>)
    requires taken <= live && foreign == live - taken && part <= foreign && foreign' == live' - taken
    requires live' == live - part
    ensures foreign' == foreign - part
  {
  }

  lemma DistinctMore(caches: seq<KmemCache>, cache: KmemCache)
    requires Distinct(caches) && cache !in caches
    ensures Distinct([cache] + caches)
  {
  }

  lemma DistinctLess(caches: seq<KmemCache>, i: nat)
    requires Distinct(caches)
    ensures Distinct(CutAt(caches, i))
  {
  }

  // One cache more.
  lemma OneMore(small: SmallBuffers, caches: seq<KmemCache>, w: Holdings, rest: set<nat>, cache: KmemCache, kit: Kit)
    requires small.Valid() && |w.kits| == |caches| && Distinct(caches) && cache !in caches
    requires CacheOk(small, cache, kit) && forall i: nat :: i < |caches| ==> CacheOk(small, caches[i], w.kits[i])
    requires Divided(small.Foreign(), [CacheBlocks(cache)] + Parts(caches), Nodes(Ground(small), w.pages), rest)
    requires ChunksIn(small.buddy.mem[..], Used(small), w.chunks)
    requires PagesIn(Ground(small), small.buddy.live, small.buddy.mem[..], w.pages)
    ensures InOrder(small, [cache] + caches, w.(kits := [kit] + w.kits), rest)
  {
    hide *;
    var more, w' := [cache] + caches, w.(kits := [kit] + w.kits);
    PartsThere(caches);
    PartsAre(more, [CacheBlocks(cache)] + Parts(caches));
    forall i: nat | i < |more|
      ensures CacheOk(small, more[i], w'.kits[i])
    {
      if i > 0 {
        assert more[i] == caches[i - 1] && w'.kits[i] == w.kits[i - 1];
      }
    }
    DistinctMore(caches, cache);
    MakeInOrder(small, more, w', rest);
  }

  // The parts of caches other than i are as in parts.
  lemma SameCut(caches: seq<KmemCache>, parts: seq<set<nat>>, i: nat)
    requires |parts| == |caches| && i < |caches|
    requires forall k: nat :: k < |caches| && k != i ==> parts[k] == CacheBlocks(caches[k])
    ensures CutAt(Parts(caches), i) == CutAt(parts, i)
  {
    hide *;
    var now := Parts(caches);
    PartsThere(caches);
    CutIs(now, i);
    CutIs(parts, i);
    assert now[..i] == parts[..i] && now[i + 1..] == parts[i + 1..];
  }

  // Cache i less.
  lemma OneLess(small: SmallBuffers, caches: seq<KmemCache>, w: Holdings, rest: set<nat>, i: nat)
    requires small.Valid() && |w.kits| == |caches| && Distinct(caches) && i < |caches|
    requires forall k: nat :: k < |caches| && k != i ==> CacheOk(small, caches[k], w.kits[k])
    requires Divided(small.Foreign(), CutAt(Parts(caches), i), Nodes(Ground(small), w.pages), rest)
    requires ChunksIn(small.buddy.mem[..], Used(small), w.chunks)
    requires PagesIn(Ground(small), small.buddy.live, small.buddy.mem[..], w.pages)
    ensures InOrder(small, CutAt(caches, i), w.(kits := CutAt(w.kits, i)), rest)
  {
    hide *;
    var less, w' := CutAt(caches, i), w.(kits := CutAt(w.kits, i));
    CutIs(caches, i);
    CutIs(w.kits, i);
    PartsThere(caches);
    CutIs(Parts(caches), i);
    PartsAre(less, CutAt(Parts(caches), i));
    forall k: nat | k < |less|
      ensures CacheOk(small, less[k], w'.kits[k])
    {
      var l := if k < i then k else k + 1;
      assert less[k] == caches[l] && w'.kits[k] == w.kits[l];
    }
    DistinctLess(caches, i);
    MakeInOrder(small, less, w', rest);
  }

  // A cache answers a request; the other caches and the small buffers are idle.
  method Reply(small: SmallBuffers, caches: seq<KmemCache>, i: nat, held: seq<Held>, q: Request)
    returns (ok: bool, r: nat, after: seq<Held>)
    requires |small.buffers| == 13 && i < |caches| && caches[i].buddy == small.buddy && caches[i] !in small.buffers
    requires forall k :: 0 <= k < |caches| && k != i ==> caches[k] != caches[i]
    requires caches[i].Valid() && InHand(caches[i].sh, Client(caches[i].value, held), small.buddy.mem[..])
    requires q.Get? ==> caches[i].order <= small.buddy.n
    modifies caches[i], small.buddy, small.buddy.mem, small.buddy.bitmap, small.buddy.freeList
    ensures caches[i].Valid() && InHand(caches[i].sh, Client(caches[i].value, after), small.buddy.mem[..])
    ensures small.buddy.Valid() && caches[i].Others() == old(caches[i].Others())
    ensures Kept(small.buddy.n, small.buddy.start, old(small.buddy.mem[..]), small.buddy.mem[..], caches[i].Others())
    ensures after == HeldAfter(held, q, r, caches[i].sh.objSize) && (!ok ==> after == held)
    ensures if ok then q.Get? && |q.image| <= caches[i].sh.objSize ==> r != 0
            else q.Get? && |q.image| <= caches[i].sh.objSize && !caches[i].CanServe()
    ensures BuffersIdle(small) && CachesIdle(caches, i)
    ensures ok ==> Replied(caches[i], old(caches[i].value), held, q, r, after, small.buddy.mem[..])
    ensures !q.Trim? ==>
              Fed(ok, old(small.buddy.live), old(small.buddy.lists), old(WantedBy(caches[i], q)), small.buddy.live,
                  small.buddy.lists)
  {
    hide *;
    ghost var m, cache := small.buddy.mem[..], caches[i];
    KeptSelf(small.buddy.n, small.buddy.start, m, cache.Others());
    MakeServing(cache, held, m);
    ok, r, after := Answer(caches[i], held, q, m);
    if !q.Trim? {
      MakeFed(ok, old(small.buddy.live), old(small.buddy.lists), old(WantedBy(caches[i], q)), small.buddy.live,
              small.buddy.lists);
    }
    MakeCachesIdle((caches, i));
    SameBuffers(small);
    ServingParts(cache, after, m);
    cache.HoldingParts();
    if ok {
      MakeReplied(cache, old(cache.value), held, q, r, after, small.buddy.mem[..]);
      AnsweredHeld(cache.sh, Client(old(cache.value), held), q, r, Client(cache.value, after));
    } else {
      NotAnswered(held, q, cache.sh.objSize);
    }
  }

  method DoAsk(small: SmallBuffers, caches: seq<KmemCache>, w: Holdings, ghost rest: set<nat>, i: nat, q: Request)
    returns (ok: bool, r: nat, kits: seq<Kit>, ghost held: seq<Held>)
    requires InOrder(small, caches, w, rest) && i < |caches| == |w.kits|
    requires q.Get? ==> caches[i].order <= small.buddy.n
    modifies caches[i], small.buddy, small.buddy.mem, small.buddy.bitmap, small.buddy.freeList
    ensures InOrder(small, caches, w.(kits := kits), rest) && kits == Asked(w.kits, i, q, r)
    ensures Kept(small.buddy.n, small.buddy.start, old(small.buddy.mem[..]), small.buddy.mem[..], rest)
    ensures |kits| == |w.kits| && kits[i].held == held && (!ok ==> kits == w.kits)
    ensures if ok then q.Get? && |q.image| <= ObjectSize(w.kits[i].size) ==> r != 0
            else q.Get? && |q.image| <= ObjectSize(w.kits[i].size) && caches[i].Valid() && !caches[i].CanServe()
    ensures !ok ==> caches[i].order <= caches[i].buddy.n
    ensures BuffersIdle(small) && CachesIdle(caches, i)
    ensures ok ==> Replied(caches[i], old(caches[i].value), w.kits[i].held, q, r, held, small.buddy.mem[..])
    ensures !q.Trim? ==>
              Fed(ok, old(small.buddy.live), old(small.buddy.lists), old(WantedBy(caches[i], q)), small.buddy.live,
                  small.buddy.lists)
  {
    hide *;
    InOrderParts(small, caches, w, rest);
    Before(small, caches, w, rest);
    AllClassed(small);
    GroundIs(small);
    ghost var m, live, parts := small.buddy.mem[..], small.buddy.live, Parts(caches);
    ghost var foreign, taken := small.Foreign(), HeldAll(small);
    PartsThere(caches);
    CachesThere(small, caches, w.kits);
    var cache := caches[i];
    ghost var others := cache.Others();
    OthersAre(cache);
    KitParts(cache, w.kits[i], m);
    var now;
    ok, r, now := Reply(small, caches, i, w.kits[i].held, q);
    held := now;
    ghost var t := small.buddy.mem[..];
    AskedIs(w.kits, i, q, r);
    kits := w.kits[i := w.kits[i].(held := now)];
    SameBuffers(small);
    small.OtherCacheAtWork(cache);
    BuffersAtRest(small);
    HeldAllIs(small);
    OthersAre(cache);
    forall k: nat | k < |caches| && k != i
      ensures CacheOk(small, caches[k], w.kits[k]) && CacheBlocks(caches[k]) == parts[k]
    {
      MakeSame(caches[k]);
      CacheAtRest((caches[k], w.kits[k], others));
      MakeCacheOk(small, caches[k], w.kits[k]);
    }
    MakeKitIn(cache, kits[i], t);
    MakeCacheOk(small, cache, kits[i]);
    ForeignAfter(live, taken, foreign, parts[i], CacheBlocks(cache), small.buddy.live, small.Foreign());
    PartChanged(foreign, parts, Nodes(Ground(small), w.pages), rest, i, CacheBlocks(cache), small.Foreign());
    PartsAre(caches, parts[i := CacheBlocks(cache)]);
    PagesStay(Ground(small), live, m, small.buddy.live, t, others, w.pages);
    KeptSubset(small.buddy.n, small.buddy.start, m, t, others, rest);
    ChunksStay(m, Used(small), t, w.chunks);
    MakeInOrder(small, caches, w.(kits := kits), rest);
  }

  method DoMake(small: SmallBuffers, caches: seq<KmemCache>, w: Holdings, ghost rest: set<nat>, size: nat)
    returns (r: nat, more: seq<KmemCache>)
    requires InOrder(small, caches, w, rest)
    modifies small.buddy, small.buddy.mem, small.buddy.bitmap, small.buddy.freeList
    ensures InOrder(small, more, After(w, MakeCache(size), r), rest)
    ensures Kept(small.buddy.n, small.buddy.start, old(small.buddy.mem[..]), small.buddy.mem[..], rest)
    ensures r == 0 ==>
              more == caches && |small.buddy.lists| > 0 && BuddySpec.Alloc(small.buddy.lists, 0) == None
    ensures forall k :: 0 <= k < |more| ==> more[k] in caches || fresh(more[k])
    ensures BuffersIdle(small) && CachesIdle(caches, -1)
    ensures Fed(r != 0, old(small.buddy.live), old(small.buddy.lists), [0], small.buddy.live, small.buddy.lists)
    ensures r == 0 ==> more == caches
    ensures r != 0 ==> |more| == |caches| + 1 && more[1..] == caches && fresh(more[0]) && NewCache(more[0], r, size)
  {
    hide *;
    InOrderParts(small, caches, w, rest);
    Before(small, caches, w, rest);
    AllClassed(small);
    GroundIs(small);
    ghost var m, live, parts := small.buddy.mem[..], small.buddy.live, Parts(caches);
    ghost var foreign, taken := small.Foreign(), HeldAll(small);
    PartsThere(caches);
    CachesThere(small, caches, w.kits);
    var cache := CreateCache(small.buddy, size);
    MakeFed(cache != null, live, old(small.buddy.lists), [0], small.buddy.live, small.buddy.lists);
    MakeCachesIdle((caches, -1));
    ghost var t := small.buddy.mem[..];
    if cache != null {
      OthersAre(cache);
    }
    SameBuffers(small);
    small.OthersAtWork(live);
    BuffersAtRest(small);
    HeldAllIs(small);
    forall i: nat | i < |caches|
      ensures CacheOk(small, caches[i], w.kits[i]) && CacheBlocks(caches[i]) == parts[i]
    {
      MakeSame(caches[i]);
      CacheAtRest((caches[i], w.kits[i], live));
      MakeCacheOk(small, caches[i], w.kits[i]);
    }
    PartsAre(caches, parts);
    PagesStay(Ground(small), live, m, small.buddy.live, t, live, w.pages);
    KeptSubset(small.buddy.n, small.buddy.start, m, t, live, rest);
    ChunksStay(m, Used(small), t, w.chunks);
    r, more := 0, caches;
    AfterMake(w, size, 0);
    if cache == null {
      MakeInOrder(small, caches, w, rest);
    } else {
      r, more := cache.home, [cache] + caches;
      MakeNewCache(cache, r, size);
      assert more[1..] == caches;
      NothingInHand(cache.sh, t);
      MakeKitIn(cache, Kit(r, size, []), t);
      MakeCacheOk(small, cache, Kit(r, size, []));
      ForeignMore(live, taken, foreign, CacheBlocks(cache), small.buddy.live, small.Foreign());
      PartAdded(foreign, parts, Nodes(Ground(small), w.pages), rest, CacheBlocks(cache));
      OneMore(small, caches, w, rest, cache, Kit(r, size, []));
      AfterMake(w, size, r);
    }
  }

  lemma AfterMake(w: Holdings, size: nat, r: nat)
    ensures After(w, MakeCache(size), r) == if r == 0 then w else w.(kits := [Kit(r, size, [])] + w.kits)
  {
  }

  method DoDrop(small: SmallBuffers, caches: seq<KmemCache>, w: Holdings, ghost rest: set<nat>, i: nat)
    requires InOrder(small, caches, w, rest) && i < |caches|
    modifies caches[i], small.buddy, small.buddy.mem, small.buddy.bitmap, small.buddy.freeList
    ensures InOrder(small, CutAt(caches, i), w.(kits := CutAt(w.kits, i)), rest)
    ensures Kept(small.buddy.n, small.buddy.start, old(small.buddy.mem[..]), small.buddy.mem[..], rest)
    ensures BuffersIdle(small) && CachesIdle(caches, i)
    ensures small.buddy.live == old(small.buddy.live - CacheBlocks(caches[i]))
  {
    hide *;
    InOrderParts(small, caches, w, rest);
    Before(small, caches, w, rest);
    AllClassed(small);
    GroundIs(small);
    ghost var m, live, parts := small.buddy.mem[..], small.buddy.live, Parts(caches);
    ghost var foreign, taken := small.Foreign(), HeldAll(small);
    PartsThere(caches);
    CachesThere(small, caches, w.kits);
    OthersAre(caches[i]);
    caches[i].Destroy();
    MakeCachesIdle((caches, i));
    ghost var t, left := small.buddy.mem[..], small.buddy.live;
    SameBuffers(small);
    small.OthersAtWork(left);
    BuffersAtRest(small);
    HeldAllIs(small);
    forall k: nat | k < |caches| && k != i
      ensures CacheOk(small, caches[k], w.kits[k]) && CacheBlocks(caches[k]) == parts[k]
    {
      MakeSame(caches[k]);
      CacheAtRest((caches[k], w.kits[k], left));
      MakeCacheOk(small, caches[k], w.kits[k]);
    }
    PagesStay(Ground(small), live, m, left, t, left, w.pages);
    KeptSubset(small.buddy.n, small.buddy.start, m, t, left, rest);
    ChunksStay(m, Used(small), t, w.chunks);
    PartDropped(foreign, parts, Nodes(Ground(small), w.pages), rest, i);
    ForeignLess(live, taken, foreign, parts[i], left, small.Foreign());
    SameCut(caches, parts, i);
    OneLess(small, caches, w, rest, i);
  }

  // ----- pages

  lemma OrderWithinHeap(size: nat, n: nat)
    requires 1 <= size <= 4096 * Pow2(n)
    ensures OrderFor(size) <= n
  {
    var k := OrderFor(size);
    PagesHold(size, Pow2(n));
    if k > n {
      Pow2Monotonic(n, k - 1);
    }
  }

  method DoTakePages(small: SmallBuffers, caches: seq<KmemCache>, w: Holdings, ghost rest: set<nat>, size: nat)
    returns (r: nat)
    requires InOrder(small, caches, w, rest) && 1 <= size <= 4096 * Pow2(small.buddy.n)
    modifies small.buddy, small.buddy.mem, small.buddy.bitmap, small.buddy.freeList
    ensures InOrder(small, caches, After(w, TakePages(size), r), rest)
    ensures Kept(small.buddy.n, small.buddy.start, old(small.buddy.mem[..]), small.buddy.mem[..], rest)
    ensures r == 0 ==>
            OrderFor(size) < |small.buddy.lists| && BuddySpec.Alloc(small.buddy.lists, OrderFor(size)) == None
    ensures BuffersIdle(small) && CachesIdle(caches, -1)
    ensures Fed(r != 0, old(small.buddy.live), old(small.buddy.lists), [OrderFor(size)], small.buddy.live,
                small.buddy.lists)
  {
    hide *;
    InOrderParts(small, caches, w, rest);
    Before(small, caches, w, rest);
    AllClassed(small);
    GroundIs(small);
    ghost var p, m, live, parts := Ground(small), small.buddy.mem[..], small.buddy.live, Parts(caches);
    ghost var nodes, foreign := Nodes(Ground(small), w.pages), small.Foreign();
    PartsThere(caches);
    CachesThere(small, caches, w.kits);
    small.buddy.ValidParts();
    ghost var lists := small.buddy.lists;
    OrderWithinHeap(size, small.buddy.n);
    r := TakeBlock(small.buddy, size, OrderFor(size));
    MakeCachesIdle((caches, -1));
    ghost var t := small.buddy.mem[..];
    KeptSubset(p.n, p.start, m, t, small.buddy.live, live);
    SameBuffers(small);
    small.OthersAtWork(live);
    BuffersAtRest(small);
    HeldAllIs(small);
    forall k: nat | k < |caches|
      ensures CacheOk(small, caches[k], w.kits[k]) && CacheBlocks(caches[k]) == parts[k]
    {
      MakeSame(caches[k]);
      CacheAtRest((caches[k], w.kits[k], live));
      MakeCacheOk(small, caches[k], w.kits[k]);
    }
    PartsAre(caches, parts);
    ChunksStay(m, Used(small), t, w.chunks);
    KeptSubset(p.n, p.start, m, t, live, rest);
    PagesStay(p, live, m, small.buddy.live, t, live, w.pages);
    AfterTake(w, size, r);
    MakeFed(false, live, lists, [OrderFor(size)], live, lists);
    if r != 0 {
      ghost var x := BlockAt(p, r, OrderFor(size));
      OneSupplied(live, lists, OrderFor(size), x, small.buddy.live, small.buddy.lists);
      MakeFed(true, live, lists, [OrderFor(size)], small.buddy.live, small.buddy.lists);
      PageTaken(p, small.buddy.live, t, r, size);
      PagesInAdded(p, small.buddy.live, t, Chunk(r, size, []), w.pages);
      NodesAdded(p, Chunk(r, size, []), w.pages);
      NodeAdded(foreign, parts, nodes, rest, x);
      assert small.Foreign() == foreign + {x};
    }
    MakeInOrder(small, caches, After(w, TakePages(size), r), rest);
  }

  lemma AfterTake(w: Holdings, size: nat, r: nat)
    ensures After(w, TakePages(size), r) == if r == 0 then w else w.(pages := [Chunk(r, size, [])] + w.pages)
  {
  }

  method DoGivePages(small: SmallBuffers, caches: seq<KmemCache>, w: Holdings, ghost rest: set<nat>, i: nat)
    requires InOrder(small, caches, w, rest) && i < |w.pages|
    modifies small.buddy, small.buddy.mem, small.buddy.bitmap, small.buddy.freeList
    ensures InOrder(small, caches, w.(pages := CutAt(w.pages, i)), rest)
    ensures Kept(small.buddy.n, small.buddy.start, old(small.buddy.mem[..]), small.buddy.mem[..], rest)
    ensures BuffersIdle(small) && CachesIdle(caches, -1)
    ensures w.pages[i].size >= 1
    ensures small.buddy.live ==
            old(small.buddy.live) - {BlockAt(Ground(small), w.pages[i].at, OrderFor(w.pages[i].size))}
  {
    hide *;
    InOrderParts(small, caches, w, rest);
    Before(small, caches, w, rest);
    AllClassed(small);
    GroundIs(small);
    ghost var p, m, live, parts := Ground(small), small.buddy.mem[..], small.buddy.live, Parts(caches);
    ghost var nodes, foreign := Nodes(Ground(small), w.pages), small.Foreign();
    PartsThere(caches);
    CachesThere(small, caches, w.kits);
    PageAt(p, live, m, w.pages, i);
    GiveBlock(small.buddy, w.pages[i].at, OrderFor(w.pages[i].size));
    MakeCachesIdle((caches, -1));
    ghost var t, left := small.buddy.mem[..], small.buddy.live;
    SameBuffers(small);
    small.OthersAtWork(left);
    BuffersAtRest(small);
    HeldAllIs(small);
    forall k: nat | k < |caches|
      ensures CacheOk(small, caches[k], w.kits[k]) && CacheBlocks(caches[k]) == parts[k]
    {
      MakeSame(caches[k]);
      CacheAtRest((caches[k], w.kits[k], left));
      MakeCacheOk(small, caches[k], w.kits[k]);
    }
    PartsAre(caches, parts);
    ChunksStay(m, Used(small), t, w.chunks);
    KeptSubset(p.n, p.start, m, t, left, rest);
    NodesCut(p, w.pages, i);
    DividedParts(foreign, parts, nodes, rest);
    CutMember(nodes, i);
    PagesCut(p, live, m, w.pages, i);
    PagesStay(p, live, m, left, t, left, CutAt(w.pages, i));
    NodeCut(foreign, parts, nodes, rest, i);
    assert small.Foreign() == foreign - {nodes[i]};
    MakeInOrder(small, caches, w.(pages := CutAt(w.pages, i)), rest);
  }

  // The whole block of pages lies in memory, and a write at its start within its size stays inside.
  lemma PageSpace(buddy: BuddyAllocator, c: Chunk)
    requires buddy.Valid() && PageIn(Place(buddy.n, buddy.start), buddy.live, buddy.mem[..], c)
    ensures c.at + c.size <= buddy.mem.Length && c.size <= 4096 * Pow2(OrderFor(c.size))
  {
    SizeHeld(c.size);
    BlockInside(buddy.n, BlockAt(Place(buddy.n, buddy.start), c.at, OrderFor(c.size)));
  }

  lemma OutsideMore(m: seq<byte>, t: seq<byte>, lo: nat, hi: nat, more: nat)
    requires SameOutside(m, t, lo, hi) && hi <= more
    ensures SameOutside(m, t, lo, more)
  {
  }

  method DoWritePages(small: SmallBuffers, caches: seq<KmemCache>, w: Holdings, ghost rest: set<nat>, i: nat,
                      image: seq<byte>)
    requires InOrder(small, caches, w, rest) && i < |w.pages| && |image| <= w.pages[i].size
    modifies small.buddy.mem
    ensures InOrder(small, caches, w.(pages := Written(w.pages, i, image)), rest)
    ensures Kept(small.buddy.n, small.buddy.start, old(small.buddy.mem[..]), small.buddy.mem[..], rest)
    ensures BuffersIdle(small) && CachesIdle(caches, -1)
  {
    hide *;
    InOrderParts(small, caches, w, rest);
    Before(small, caches, w, rest);
    AllClassed(small);
    GroundIs(small);
    ghost var p, m, live, parts := Ground(small), small.buddy.mem[..], small.buddy.live, Parts(caches);
    ghost var nodes, foreign := Nodes(Ground(small), w.pages), small.Foreign();
    PartsThere(caches);
    CachesThere(small, caches, w.kits);
    ghost var c := w.pages[i];
    PageAt(p, live, m, w.pages, i);
    PageHere(p, live, m, w.pages, i);
    PageSpace(small.buddy, c);
    StillValidWith(small.buddy);
    LiveSeparate(small.buddy);
    WriteBytes(small.buddy.mem, w.pages[i].at, image);
    MakeCachesIdle((caches, -1));
    ghost var t, kept := small.buddy.mem[..], live - {nodes[i]};
    OutsideMore(m, t, c.at, c.at + |image|, c.at + 4096 * Pow2(OrderFor(c.size)));
    BlockWriteOwned(p, m, t, live, c.at, OrderFor(c.size));
    small.buddy.ValidAfterOwnedWrites(m);
    BlockWriteKept(p, m, t, live, kept, c.at, OrderFor(c.size));
    SameBuffers(small);
    small.OthersAtWork(kept);
    BuffersAtRest(small);
    HeldAllIs(small);
    forall k: nat | k < |caches|
      ensures CacheOk(small, caches[k], w.kits[k]) && CacheBlocks(caches[k]) == parts[k]
    {
      MakeSame(caches[k]);
      CacheAtRest((caches[k], w.kits[k], kept));
      MakeCacheOk(small, caches[k], w.kits[k]);
    }
    PartsAre(caches, parts);
    ChunksStay(m, Used(small), t, w.chunks);
    KeptSubset(p.n, p.start, m, t, kept, rest);
    PageWritten(p, live, m, c, t, image);
    forall k: nat | k < |w.pages| && k != i
      ensures PageIn(p, live, t, w.pages[k])
    {
      DividedParts(foreign, parts, nodes, rest);
      OtherNodes(nodes, i, k);
      PageAt(p, live, m, w.pages, k);
      PageHere(p, live, m, w.pages, k);
      PageStays(p, live, m, live, t, kept, w.pages[k]);
    }
    PagesWritten(p, live, m, t, w.pages, i, image);
    NodesWritten(p, w.pages, i, image);
    MakeInOrder(small, caches, w.(pages := Written(w.pages, i, image)), rest);
  }

  // ----- any number of events

  // What the heap promises about event e: buffers up to 128 KB with their header, pages up to the whole heap.
  predicate Sensible(e: Event, n: nat) {
    match e
    case Malloc(size) => size <= 131071
    case TakePages(size) => 1 <= size <= 4096 * Pow2(n)
    case _ => true
  }

  // An event that asks for memory and has to get some. A cache whose slabs do not fit in the heap never has
  // any.
  predicate Wants(w: Holdings, e: Event, n: nat) {
    match e
    case Malloc(_) => true
    case MakeCache(_) => true
    case TakePages(_) => true
    case Ask(i, q) =>
      i < |w.kits| && q.Get? && |q.image| <= ObjectSize(w.kits[i].size) && SlabOrder(w.kits[i].size) <= n
    case _ => false
  }

  // There is no memory for what event e asks for.
  ghost predicate Refused(small: SmallBuffers, caches: seq<KmemCache>, e: Event)
    reads small, small.buffers, caches, small.buddy, small.buddy.mem, small.buddy.bitmap, small.buddy.freeList
  {
    match e
    case Malloc(size) => exists j: nat :: Adequate(size + 1, j) && !small.Available(j)
    case MakeCache(_) => |small.buddy.lists| > 0 && BuddySpec.Alloc(small.buddy.lists, 0) == None
    case TakePages(size) =>
      size >= 1 && OrderFor(size) < |small.buddy.lists| && BuddySpec.Alloc(small.buddy.lists, OrderFor(size)) == None
    case Ask(i, q) =>
      i < |caches| && q.Get? && caches[i].buddy == small.buddy && caches[i].Valid()
      && caches[i].order <= small.buddy.n && !caches[i].CanServe()
    case _ => false
  }

  lemma NotAsked(w: Holdings, i: nat, q: Request)
    requires i >= |w.kits| || q.Get?
    ensures After(w, Ask(i, q), 0) == w
  {
    if i < |w.kits| {
      NotAnswered(w.kits[i].held, q, ObjectSize(w.kits[i].size));
      assert w.kits[i := w.kits[i]] == w.kits;
    }
  }

  lemma KitOrder(small: SmallBuffers, caches: seq<KmemCache>, w: Holdings, rest: set<nat>, i: nat)
    requires InOrder(small, caches, w, rest) && i < |caches|
    ensures |w.kits| == |caches| && caches[i].order == SlabOrder(w.kits[i].size) && caches[i].buddy == small.buddy
  {
    hide *;
    InOrderParts(small, caches, w, rest);
    CacheOkParts(small, caches[i], w.kits[i]);
    KitParts(caches[i], w.kits[i], small.buddy.mem[..]);
  }

  lemma SameLength(small: SmallBuffers, caches: seq<KmemCache>, w: Holdings, rest: set<nat>)
    requires InOrder(small, caches, w, rest)
    ensures |w.kits| == |caches|
  {
    hide *;
    InOrderParts(small, caches, w, rest);
  }

  lemma NothingWritten(small: SmallBuffers, rest: set<nat>)
    ensures Kept(small.buddy.n, small.buddy.start, small.buddy.mem[..], small.buddy.mem[..], rest)
  {
  }

  // The blocks given back for good.
  ghost function Given(small: SmallBuffers, caches: seq<KmemCache>, w: Holdings, e: Event): set<nat>
    reads caches
  {
    match e
    case DropCache(i) => if i < |caches| then CacheBlocks(caches[i]) else {}
    case GivePages(i) =>
      if i < |w.pages| && w.pages[i].size >= 1 then
        {BlockAt(Ground(small), w.pages[i].at, OrderFor(w.pages[i].size))}
      else {}
    case _ => {}
  }

  lemma GivenIs(small: SmallBuffers, caches: seq<KmemCache>, w: Holdings, e: Event)
    ensures e.DropCache? ==> Given(small, caches, w, e) == if e.i < |caches| then CacheBlocks(caches[e.i]) else {}
    ensures e.GivePages? ==>
              Given(small, caches, w, e) ==
              if e.i < |w.pages| && w.pages[e.i].size >= 1
              then {BlockAt(Ground(small), w.pages[e.i].at, OrderFor(w.pages[e.i].size))} else {}
  {
    hide CacheBlocks, BlockAt, OrderFor, Ground;
  }

  // An event at the caches.
  method StepCaches(small: SmallBuffers, caches: seq<KmemCache>, w: Holdings, ghost rest: set<nat>, e: Event)
    returns (ok: bool, r: nat, now: seq<KmemCache>, after: Holdings)
    requires InOrder(small, caches, w, rest) && (e.MakeCache? || e.DropCache? || e.Ask?)
    modifies caches, small.buddy, small.buddy.mem, small.buddy.bitmap, small.buddy.freeList
    ensures InOrder(small, now, after, rest)
    ensures Kept(small.buddy.n, small.buddy.start, old(small.buddy.mem[..]), small.buddy.mem[..], rest)
    ensures if ok then after == After(w, e, r) && (Wants(w, e, small.buddy.n) ==> r != 0)
            else after == w && Wants(w, e, small.buddy.n) && Refused(small, now, e)
    ensures forall k :: 0 <= k < |now| ==> now[k] in caches || fresh(now[k])
    ensures BuffersIdle(small) && CachesIdle(caches, if e.Ask? || e.DropCache? then e.i else -1)
    ensures Drawn(e, ok, old(small.buddy.live), old(small.buddy.lists), old(OrdersFor(caches, e, small.buddy.n)),
                  old(Given(small, caches, w, e)), small.buddy.live, small.buddy.lists)
    ensures ok ==> CacheDoes(caches, old(ValueAsked(caches, e)), w, e, r, after, small.buddy.n, small.buddy.mem[..])
    ensures CachesNow(caches, e, r, now)
  {
    hide InOrder, SmallBuffers.Available, Asked, CutAt, Written, BuddySpec.Alloc, OrderFor, Adequate, Kept, SlabOrder;
    hide KmemCache.Valid, KmemCache.CanServe, Mallocs, Frees, BuffersIdle, CachesIdle, Fed, Replied, NewCache, BlockAt;
    hide CacheBlocks, Ground, Drawn, OrdersFor, Given;
    CutIs(caches, if e.DropCache? then e.i else 0);
    ghost var live, lists := small.buddy.live, small.buddy.lists;
    ghost var wanted, given := OrdersFor(caches, e, small.buddy.n), Given(small, caches, w, e);
    OrdersAre(caches, e, small.buddy.n);
    GivenIs(small, caches, w, e);
    SameLength(small, caches, w, rest);
    NothingSupplied(small.buddy.live, small.buddy.lists);
    MakeFed(true, small.buddy.live, small.buddy.lists, [], small.buddy.live, small.buddy.lists);
    MakeBuffersIdle(small);
    MakeCachesIdle((caches, -1));
    MakeCachesIdle((caches, if e.Ask? || e.DropCache? then e.i else -1));
    ok, r, now, after := true, 0, caches, w;
    match e {
      case MakeCache(size) =>
        r, now := DoMake(small, caches, w, rest, size);
        ok, after := r != 0, After(w, e, r);
      case DropCache(i) =>
        CutIs(w.kits, i);
        NothingWritten(small, rest);
        if i < |caches| {
          DoDrop(small, caches, w, rest, i);
          CutFrom(caches, i);
          now := CutAt(caches, i);
        }
        after := w.(kits := CutAt(w.kits, i));
      case Ask(i, q) =>
        NotAskedOr(w, i, q);
        NothingWritten(small, rest);
        if i < |caches| {
          KitOrder(small, caches, w, rest, i);
          if q.Get? ==> SlabOrder(w.kits[i].size) <= small.buddy.n {
            var kits;
            ghost var held;
            ok, r, kits, held := DoAsk(small, caches, w, rest, i, q);
            after := w.(kits := kits);
          }
        }
    }
    MakeDrawn(e, ok, live, lists, wanted, given, small.buddy.live, small.buddy.lists);
  }

  // One event.
  method Step(small: SmallBuffers, caches: seq<KmemCache>, w: Holdings, ghost rest: set<nat>, e: Event)
    returns (ok: bool, r: nat, now: seq<KmemCache>, after: Holdings)
    requires InOrder(small, caches, w, rest) && Sensible(e, small.buddy.n)
    modifies small, small.buffers, caches, small.buddy, small.buddy.mem, small.buddy.bitmap, small.buddy.freeList
    ensures InOrder(small, now, after, rest)
    ensures Kept(small.buddy.n, small.buddy.start, old(small.buddy.mem[..]), small.buddy.mem[..], rest)
    ensures if ok then after == After(w, e, r) && (Wants(w, e, small.buddy.n) ==> r != 0)
            else after == w && Wants(w, e, small.buddy.n) && Refused(small, now, e)
    ensures forall c :: c in small.buffers && c != null ==> c in old(small.buffers) || fresh(c)
    ensures forall k :: 0 <= k < |now| ==> now[k] in caches || fresh(now[k])
    ensures BuffersDo(small, w, e, r) && CachesIdle(caches, if e.Ask? || e.DropCache? then e.i else -1)
    ensures Drawn(e, ok, old(small.buddy.live), old(small.buddy.lists), old(OrdersFor(caches, e, small.buddy.n)),
                  old(Given(small, caches, w, e)), small.buddy.live, small.buddy.lists)
    ensures ok ==> CacheDoes(caches, old(ValueAsked(caches, e)), w, e, r, after, small.buddy.n, small.buddy.mem[..])
    ensures CachesNow(caches, e, r, now)
  {
    hide InOrder, SmallBuffers.Available, Asked, CutAt, Written, BuddySpec.Alloc, OrderFor, Adequate, Kept, SlabOrder;
    hide KmemCache.Valid, KmemCache.CanServe, Mallocs, Frees, BuffersIdle, CachesIdle, Fed, Replied, NewCache, BlockAt;
    hide CacheBlocks, Ground, Drawn, OrdersFor, Given;
    if e.MakeCache? || e.DropCache? || e.Ask? {
      ok, r, now, after := StepCaches(small, caches, w, rest, e);
      return;
    }
    ghost var live, lists := small.buddy.live, small.buddy.lists;
    ghost var wanted, given := OrdersFor(caches, e, small.buddy.n), Given(small, caches, w, e);
    OrdersAre(caches, e, small.buddy.n);
    GivenIs(small, caches, w, e);
    SameLength(small, caches, w, rest);
    NothingSupplied(small.buddy.live, small.buddy.lists);
    MakeFed(true, small.buddy.live, small.buddy.lists, [], small.buddy.live, small.buddy.lists);
    MakeBuffersIdle(small);
    MakeCachesIdle((caches, -1));
    ok, r, now, after := true, 0, caches, w;
    match e {
      case Malloc(size) =>
        r := DoMalloc(small, caches, w, rest, size);
        ok, after := r != 0, After(w, e, r);
      case FreeChunk(i) =>
        CutIs(w.chunks, i);
        NothingWritten(small, rest);
        if i < |w.chunks| {
          DoFree(small, caches, w, rest, i);
        }
        after := w.(chunks := CutAt(w.chunks, i));
      case Fill(i, image) =>
        WrittenIs(w.chunks, i, image);
        NothingWritten(small, rest);
        if i < |w.chunks| && |image| <= w.chunks[i].size {
          DoFill(small, caches, w, rest, i, image);
        }
        after := w.(chunks := Written(w.chunks, i, image));
      case TakePages(size) =>
        r := DoTakePages(small, caches, w, rest, size);
        ok, after := r != 0, After(w, e, r);
      case GivePages(i) =>
        CutIs(w.pages, i);
        NothingWritten(small, rest);
        if i < |w.pages| {
          DoGivePages(small, caches, w, rest, i);
        }
        after := w.(pages := CutAt(w.pages, i));
      case WritePages(i, image) =>
        WrittenIs(w.pages, i, image);
        NothingWritten(small, rest);
        if i < |w.pages| && |image| <= w.pages[i].size {
          DoWritePages(small, caches, w, rest, i, image);
        }
        after := w.(pages := Written(w.pages, i, image));
    }
    MakeDrawn(e, ok, live, lists, wanted, given, small.buddy.live, small.buddy.lists);
  }

  lemma NotAskedOr(w: Holdings, i: nat, q: Request)
    ensures i >= |w.kits| || q.Get? ==> After(w, Ask(i, q), 0) == w
  {
    if i >= |w.kits| || q.Get? {
      NotAsked(w, i, q);
    }
  }

  lemma CutFrom(caches: seq<KmemCache>, i: nat)
    ensures forall k :: 0 <= k < |CutAt(caches, i)| ==> CutAt(caches, i)[k] in caches
  {
  }

  // Nobody holds anything: no small buffers were made yet, and no caches.
  method Open(buddy: BuddyAllocator) returns (small: SmallBuffers)
    requires buddy.Valid() && 8 <= buddy.n
    ensures fresh(small) && small.buddy == buddy && InOrder(small, [], Holdings([], [], []), buddy.live)
    ensures forall c :: c in small.buffers ==> c == null
  {
    hide *;
    small := new SmallBuffers(buddy);
    NothingHeld(small);
  }

  lemma NothingHeld(small: SmallBuffers)
    requires small.Valid() && forall c :: c in small.buffers ==> c == null
    ensures InOrder(small, [], Holdings([], [], []), small.buddy.live)
  {
    hide *;
    NoHeld(small);
    forall o: nat
      ensures o !in Used(small)
    {
      if o in Used(small) {
        var j := UsedClass(small, o);
        small.Thirteen();
        assert small.buffers[j] in small.buffers;
        small.NullFacts(j);
      }
    }
    Nobody(small.buddy.live, Ground(small), small.buddy.mem[..], Used(small));
    MakeInOrder(small, [], Holdings([], [], []), small.buddy.live);
  }

  // Without caches of their own the small buffers hold no blocks.
  lemma NoHeld(small: SmallBuffers)
    requires small.Valid() && forall c :: c in small.buffers ==> c == null
    ensures small.Foreign() == small.buddy.live
  {
    hide *;
    HeldAllIs(small);
    forall j: nat | j < 13
      ensures small.Held(j) == {}
    {
      assert small.buffers[j] in small.buffers;
      small.NullFacts(j);
    }
    HeldNothing(small);
  }

  lemma HeldNothing(small: SmallBuffers)
    requires |small.buffers| == 13 && forall j: nat :: j < 13 ==> small.Held(j) == {}
    ensures HeldAll(small) == {}
  {
    hide SmallBuffers.Held;
  }

  lemma Nobody(live: set<nat>, p: Place, m: seq<byte>, u: iset<nat>)
    requires forall o: nat :: o !in u
    ensures Divided(live, Parts([]), Nodes(p, []), live) && ChunksIn(m, u, []) && PagesIn(p, live, m, [])
    ensures Distinct([])
  {
    NobodyElse(live);
  }

  // The heap in use: whatever is asked for, written and given back, by users of small buffers, of any number
  // of caches and of whole pages, in any order, in the end everybody holds what After says, each thing live
  // and with the contents its holder last gave it; whatever else was live keeps its bytes. It stops early only
  // at an event there is no memory for, and every event before that asked for memory got some.
  method Session(small: SmallBuffers, caches: seq<KmemCache>, start: Holdings, ghost rest: set<nat>, events: seq<Event>)
    returns (answers: seq<nat>, now: seq<KmemCache>, w: Holdings)
    requires InOrder(small, caches, start, rest) && forall e :: e in events ==> Sensible(e, small.buddy.n)
    modifies small, small.buffers, caches, small.buddy, small.buddy.mem, small.buddy.bitmap, small.buddy.freeList
    ensures InOrder(small, now, w, rest) && |answers| <= |events|
    ensures Kept(small.buddy.n, small.buddy.start, old(small.buddy.mem[..]), small.buddy.mem[..], rest)
    ensures w == AfterAll(start, events[..|answers|], answers)
    ensures forall i :: 0 <= i < |answers| ==>
              Wants(AfterAll(start, events[..i], answers[..i]), events[i], small.buddy.n) ==> answers[i] != 0
    ensures |answers| < |events| ==>
              Wants(w, events[|answers|], small.buddy.n) && Refused(small, now, events[|answers|])
    ensures forall k :: 0 <= k < |small.buffers| && small.buffers[k] != null ==>
              small.buffers[k] in old(small.buffers) || fresh(small.buffers[k])
    ensures forall k :: 0 <= k < |now| ==> now[k] in caches || fresh(now[k])
  {
    hide *;
    answers, now, w := [], caches, start;
    AfterNone(start);
    NothingWritten(small, rest);
    while |answers| < |events|
      invariant InOrder(small, now, w, rest) && |answers| <= |events|
      invariant Kept(small.buddy.n, small.buddy.start, old(small.buddy.mem[..]), small.buddy.mem[..], rest)
      invariant w == AfterAll(start, events[..|answers|], answers)
      invariant forall i :: 0 <= i < |answers| ==>
              Wants(AfterAll(start, events[..i], answers[..i]), events[i], small.buddy.n) ==> answers[i] != 0
      invariant forall k :: 0 <= k < |small.buffers| && small.buffers[k] != null ==>
                  small.buffers[k] in old(small.buffers) || fresh(small.buffers[k])
      invariant forall k :: 0 <= k < |now| ==> now[k] in caches || fresh(now[k])
      decreases |events| - |answers|
    {
      var e := events[|answers|];
      assert e in events;
      ghost var before, m := small.buffers, small.buddy.mem[..];
      assert forall c :: c in before && c != null ==> c in old(small.buffers) || fresh(c);
      ghost var had := now;
      assert forall c :: c in had ==> c in caches || fresh(c);
      var ok, r, left, after := Step(small, now, w, rest, e);
      KeptThen(small.buddy.n, small.buddy.start, old(small.buddy.mem[..]), m, small.buddy.mem[..], rest);
      if !ok {
        now := left;
        return;
      }
      AfterOneMore(start, events[..|answers|], answers, e, r);
      assert events[..|answers|] + [e] == events[..|answers| + 1];
      ghost var more := answers + [r];
      assert more[..|answers|] == answers && forall i :: 0 <= i < |answers| ==> more[..i] == answers[..i];
      answers, now, w := answers + [r], left, after;
    }
    assert events[..|answers|] == events;
  }

  lemma NobodyLeft(small: SmallBuffers, w: Holdings, rest: set<nat>)
    requires InOrder(small, [], w, rest) && w.pages == []
    ensures small.Valid() && small.Foreign() == rest
  {
    InOrderParts(small, [], w, rest);
    hide SmallBuffers.Valid, SmallBuffers.Foreign, Divided, ChunksIn, PagesIn, InOrder;
    assert Parts([]) == [] && Nodes(Ground(small), []) == [];
    OnlyRest(small.Foreign(), rest);
  }

  // The caches of all classes are destroyed.
  method RetireAll(small: SmallBuffers, ghost rest: set<nat>)
    requires small.Valid() && small.Foreign() == rest
    modifies small, small.buffers, small.buddy, small.buddy.mem, small.buddy.bitmap, small.buddy.freeList
    ensures small.buddy.Valid() && small.buddy.live == rest
    ensures Kept(small.buddy.n, small.buddy.start, old(small.buddy.mem[..]), small.buddy.mem[..], rest)
  {
    hide *;
    NothingWritten(small, rest);
    small.Thirteen();
    for j := 0 to 13
      invariant small.Valid() && small.Foreign() == rest && |small.buffers| == 13
      invariant Kept(small.buddy.n, small.buddy.start, old(small.buddy.mem[..]), small.buddy.mem[..], rest)
      invariant forall k :: 0 <= k < j ==> small.buffers[k] == null
      invariant forall k :: j <= k < 13 ==> small.buffers[k] == old(small.buffers)[k]
    {
      if small.buffers[j] != null {
        ghost var t := small.buddy.mem[..];
        small.Retire(j);
        KeptThen(small.buddy.n, small.buddy.start, old(small.buddy.mem[..]), t, small.buddy.mem[..], rest);
      }
    }
    NoHeld(small);
    small.Thirteen();
  }

  // Everything is given back, the blocks of pages, the caches with whatever objects are still held, and the
  // caches of the small buffers: bitmap and free lists are those of any earlier time at which just the rest
  // was live, whatever happened in between.
  method Close(small: SmallBuffers, caches: seq<KmemCache>, w: Holdings, ghost rest: set<nat>, ghost bits: seq<bv8>,
               ghost lists: BuddySpec.Lists)
    requires InOrder(small, caches, w, rest) && |bits| == small.buddy.bitmap.Length
    requires BuddySpec.Canonical(small.buddy.n, rest, lists) && BitsShow(bits, rest)
    modifies small, small.buffers, caches, small.buddy, small.buddy.mem, small.buddy.bitmap, small.buddy.freeList
    ensures small.buddy.Valid() && small.buddy.live == rest
    ensures SameSupply(small.buddy.n, bits, lists, small.buddy.bitmap[..], small.buddy.lists)
    ensures Kept(small.buddy.n, small.buddy.start, old(small.buddy.mem[..]), small.buddy.mem[..], rest)
  {
    hide *;
    ghost var n, start, m := small.buddy.n, small.buddy.start, small.buddy.mem[..];
    var v, left := w, caches;
    NothingWritten(small, rest);
    while v.pages != []
      invariant InOrder(small, caches, v, rest) && Kept(n, start, m, small.buddy.mem[..], rest)
      invariant small.buffers == old(small.buffers)
      decreases |v.pages|
    {
      ghost var t := small.buddy.mem[..];
      CutIs(v.pages, 0);
      DoGivePages(small, caches, v, rest, 0);
      KeptThen(n, start, m, t, small.buddy.mem[..], rest);
      v := v.(pages := CutAt(v.pages, 0));
    }
    while left != []
      invariant InOrder(small, left, v, rest) && Kept(n, start, m, small.buddy.mem[..], rest) && v.pages == []
      invariant small.buffers == old(small.buffers) && forall k :: 0 <= k < |left| ==> left[k] in caches
      decreases |left|
    {
      ghost var t := small.buddy.mem[..];
      CutIs(left, 0);
      DoDrop(small, left, v, rest, 0);
      KeptThen(n, start, m, t, small.buddy.mem[..], rest);
      v, left := v.(kits := CutAt(v.kits, 0)), CutAt(left, 0);
    }
    NobodyLeft(small, v, rest);
    ghost var t := small.buddy.mem[..];
    RetireAll(small, rest);
    KeptThen(n, start, m, t, small.buddy.mem[..], rest);
    small.buddy.ValidParts();
    SupplyRestored(n, rest, bits, lists, small.buddy.bitmap[..], small.buddy.lists);
  }
}
