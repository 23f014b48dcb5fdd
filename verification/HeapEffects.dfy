// What an event in the life of the heap does to the buddy allocator, the small buffers and the caches,
// beyond what the holdings say.
module HeapEffects {
  import opened BuddySpec
  import opened Memory64
  import opened Buddy
  import opened SlabSpec
  import opened SlabSupply
  import opened Slab
  import opened SlabLifetime
  import opened Kmalloc
  import opened HeapHoldings

  // kmalloc for size bytes answered r: the class for them served it, taking what blocks it had to, and no
  // other class changed.
  twostate predicate Mallocs(small: SmallBuffers, size: nat, r: nat)
    reads small, small.buffers, small.buddy
  {
    exists j: nat :: Adequate(size + 1, j) && small.Malloced(j, r)
  }

  twostate lemma MakeMallocs(v: (SmallBuffers, nat, nat, nat))
    requires Adequate(v.1 + 1, v.3) && v.0.Malloced(v.3, v.2)
    ensures Mallocs(v.0, v.1, v.2)
  {
    hide Adequate, SmallBuffers.Malloced;
  }

  // kfree of the buffer at p: just its object was given back, and no other class changed.
  twostate predicate Frees(small: SmallBuffers, p: nat)
    reads small, small.buffers
  {
    p > 0 && exists j: nat :: old(small.InUse(j, p - 1)) && small.Freed(j, p)
  }

  twostate lemma MakeFrees(v: (SmallBuffers, nat, nat))
    requires v.1 > 0 && old(v.0.InUse(v.2, v.1 - 1)) && v.0.Freed(v.2, v.1)
    ensures Frees(v.0, v.1)
  {
    hide SmallBuffers.InUse, SmallBuffers.Freed;
  }

  // The small buffers' caches are the same and as they were.
  twostate predicate BuffersIdle(small: SmallBuffers)
    reads small, small.buffers
  {
    small.buffers == old(small.buffers) && forall c :: c in small.buffers ==> SameCache(c)
  }

  // All caches are as they were, but for the one at position but.
  twostate predicate CachesIdle(caches: seq<KmemCache>, but: int)
    reads caches
  {
    forall k :: 0 <= k < |caches| && k != but ==> SameCache(caches[k])
  }

  twostate lemma MakeBuffersIdle(small: SmallBuffers)
    requires small.buffers == old(small.buffers)
    requires forall c :: c in small.buffers && c != null ==>
               c.heads == old(c.heads) && c.slabs == old(c.slabs) && c.value == old(c.value)
    ensures BuffersIdle(small)
  {
  }

  twostate lemma MakeCachesIdle(v: (seq<KmemCache>, int))
    requires forall k :: 0 <= k < |v.0| && k != v.1 ==>
               var c := v.0[k]; c.heads == old(c.heads) && c.slabs == old(c.slabs) && c.value == old(c.value)
    ensures CachesIdle(v.0, v.1)
  {
  }

  // A cache that exists is asked something, and its slabs fit in the heap if it is for an object.
  ghost predicate Asks(caches: seq<KmemCache>, e: Event, n: nat)
    reads caches
  {
    e.Ask? && e.i < |caches| && (e.q.Get? ==> caches[e.i].order <= n)
  }

  // The orders of the blocks an event takes, other than kmalloc. A cache whose slabs do not fit in the heap
  // is not asked.
  ghost function OrdersFor(caches: seq<KmemCache>, e: Event, n: nat): seq<nat>
    reads caches
  {
    match e
    case MakeCache(_) => [0]
    case TakePages(size) => if size >= 1 then [OrderFor(size)] else []
    case Ask(i, q) => if Asks(caches, e, n) then WantedBy(caches[i], q) else []
    case _ => []
  }

  // The cache, in state was before, answered r to request q of the holder of held, who holds after now.
  ghost predicate Replied(cache: KmemCache, was: Cache, held: seq<Held>, q: Request, r: nat, after: seq<Held>,
                          m: seq<byte>)
    reads cache
  {
    && Answered(cache.sh, Client(was, held), q, r, Client(cache.value, after))
    && Destroyed(cache.sh, held, q, m)
  }

  lemma MakeReplied(cache: KmemCache, was: Cache, held: seq<Held>, q: Request, r: nat, after: seq<Held>,
                    m: seq<byte>)
    requires Answered(cache.sh, Client(was, held), q, r, Client(cache.value, after))
    requires Destroyed(cache.sh, held, q, m)
    ensures Replied(cache, was, held, q, r, after, m)
  {
    hide Answered, Destroyed;
  }

  ghost function ValueAsked(caches: seq<KmemCache>, e: Event): Cache
    reads caches
  {
    if e.Ask? && e.i < |caches| then caches[e.i].value else NO_SLABS
  }

  // The cache that is asked, in state was before, replies as it should; m is memory afterwards.
  ghost predicate CacheDoes(caches: seq<KmemCache>, was: Cache, w: Holdings, e: Event, r: nat, after: Holdings, n: nat,
                            m: seq<byte>)
    reads caches
  {
    Asks(caches, e, n) && e.i < |w.kits| && e.i < |after.kits| ==>
      Replied(caches[e.i], was, w.kits[e.i].held, e.q, r, after.kits[e.i].held, m)
  }

  // A new cache for objects of the given size.
  ghost predicate NewCache(cache: KmemCache, home: nat, size: nat)
    reads cache
  {
    cache.home == home && Fitting(size, cache.sh, cache.order) && cache.value == NO_SLABS
  }

  lemma MakeNewCache(cache: KmemCache, home: nat, size: nat)
    requires cache.home == home && Fitting(size, cache.sh, cache.order) && cache.value == NO_SLABS
    ensures NewCache(cache, home, size)
  {
    hide Fitting;
  }

  // Blocks of just the orders wanted were taken, or none when it is not ok.
  ghost predicate Fed(ok: bool, live: set<nat>, lists: Lists, wanted: seq<nat>, live': set<nat>, lists': Lists) {
    if ok then Supplied(live, lists, wanted, live', lists') else live' == live && lists' == lists
  }

  lemma MakeFed(ok: bool, live: set<nat>, lists: Lists, wanted: seq<nat>, live': set<nat>, lists': Lists)
    requires ok ==> Supplied(live, lists, wanted, live', lists')
    requires !ok ==> live' == live && lists' == lists
    ensures Fed(ok, live, lists, wanted, live', lists')
  {
    hide Supplied;
  }

  // What an event other than kmalloc draws from the buddy allocator, or gives to it.
  ghost predicate Drawn(e: Event, ok: bool, live: set<nat>, lists: Lists, wanted: seq<nat>, given: set<nat>,
                        live': set<nat>, lists': Lists) {
    if e.Malloc? || (e.Ask? && e.q.Trim?) then true
    else if e.DropCache? || e.GivePages? then live' == live - given
    else Fed(ok, live, lists, wanted, live', lists')
  }

  // The caches after an event.
  ghost predicate CachesNow(caches: seq<KmemCache>, e: Event, r: nat, now: seq<KmemCache>)
    reads now
  {
    match e
    case MakeCache(size) =>
      if r == 0 then now == caches
      else |now| == |caches| + 1 && now[1..] == caches && now[0] !in caches && NewCache(now[0], r, size)
    case DropCache(i) => now == CutAt(caches, i)
    case _ => now == caches
  }

  // What an event answered by r does to the small buffers.
  twostate predicate BuffersDo(small: SmallBuffers, w: Holdings, e: Event, r: nat)
    reads small, small.buffers, small.buddy
  {
    match e
    case Malloc(size) => Mallocs(small, size, r)
    case FreeChunk(i) => if i < |w.chunks| then Frees(small, w.chunks[i].at) else BuffersIdle(small)
    case _ => BuffersIdle(small)
  }

  lemma MakeDrawn(e: Event, ok: bool, live: set<nat>, lists: Lists, wanted: seq<nat>, given: set<nat>,
                  live': set<nat>, lists': Lists)
    requires e.DropCache? || e.GivePages? ==> live' == live - given
    requires !e.Malloc? && !(e.Ask? && e.q.Trim?) && !e.DropCache? && !e.GivePages? ==>
               Fed(ok, live, lists, wanted, live', lists')
    ensures Drawn(e, ok, live, lists, wanted, given, live', lists')
  {
    hide Fed;
  }

  lemma OrdersAre(caches: seq<KmemCache>, e: Event, n: nat)
    ensures e.MakeCache? ==> OrdersFor(caches, e, n) == [0]
    ensures e.TakePages? && e.size >= 1 ==> OrdersFor(caches, e, n) == [OrderFor(e.size)]
    ensures e.Ask? ==> OrdersFor(caches, e, n) == if Asks(caches, e, n) then WantedBy(caches[e.i], e.q) else []
    ensures !e.MakeCache? && !e.TakePages? && !e.Ask? ==> OrdersFor(caches, e, n) == []
  {
    hide OrderFor, WantedBy;
  }
}
