// The steps of allocating and freeing an object that only rewrite the cache's own memory: moving a
// slab between lists and relinking its free objects.
module SlabSteps {
  import opened BuddySteps
  import opened Sequences
  import opened BuddyMemory
  import opened Memory64
  import opened DList
  import opened SlabSpec
  import opened SlabMemory
  import opened SlabBlocks
  import opened SlabRecords
  import opened SlabFrames

  // Where a cache lives: the buddy heap and its live blocks, the cache's page, its slab order and shape.
  datatype Site = Site(p: Place, live: set<nat>, home: nat, order: nat, sh: Shape)

  // Memory and heads hold the cache c, in blocks of its own.
  ghost predicate Stocked(s: Site, m: seq<byte>, h: Heads, c: Cache) {
    match s
    case Site(p, live, home, order, sh) =>
      Represents(sh, m, h, c) && Classified(sh, c) && Separate(live) && Owns(p, live, home, order, sh, c.slabs)
  }

  // The live blocks that are somebody else's.
  ghost function OthersOf(s: Site, slabs: map<nat, SlabInfo>): set<nat> {
    s.live - Blocks(s.p, s.home, s.order, slabs)
  }

  // From memory m to t only bytes of live blocks changed, none of them in a block of others or in an
  // object that is live in c.
  ghost predicate Discreet(s: Site, others: set<nat>, c: Cache, m: seq<byte>, t: seq<byte>) {
    match s
    case Site(Place(n, start), live, home, order, sh) =>
      OwnedOnly(n, start, m, t, live) && Kept(n, start, m, t, others) && ObjectsKept(sh, c, m, t)
  }

  lemma DiscreetThen(s: Site, others: set<nat>, c: Cache, m: seq<byte>, u: seq<byte>, t: seq<byte>)
    requires Discreet(s, others, c, m, u) && Discreet(s, others, c, u, t)
    ensures Discreet(s, others, c, m, t)
  {
    OwnedOnlyThen(s.p.n, s.p.start, m, u, t, s.live);
    KeptThen(s.p.n, s.p.start, m, u, t, others);
    ObjectsKeptThen(s.sh, c, m, u, t);
  }

  lemma StockedParts(s: Site, m: seq<byte>, h: Heads, c: Cache)
    requires Stocked(s, m, h, c)
    ensures ShapeOk(s.sh) && Represents(s.sh, m, h, c) && Classified(s.sh, c) && Spread(s.sh, c.slabs, |m|)
    ensures Separate(s.live) && Owns(s.p, s.live, s.home, s.order, s.sh, c.slabs)
  {
  }

  lemma MakeDiscreet(s: Site, others: set<nat>, c: Cache, m: seq<byte>, t: seq<byte>)
    requires OwnedOnly(s.p.n, s.p.start, m, t, s.live) && Kept(s.p.n, s.p.start, m, t, others) &&
             ObjectsKept(s.sh, c, m, t)
    ensures Discreet(s, others, c, m, t)
  {
  }

  lemma DescriptorFrames(s: Site, c: Cache, m: seq<byte>, t: seq<byte>, h: Heads, c0: Cache)
    requires Stocked(s, m, h, c) && OnlyDescriptors(m, t, c.slabs) && Extends(c0.slabs, c.slabs)
    ensures Discreet(s, OthersOf(s, c.slabs), c0, m, t)
  {
    StockedParts(s, m, h, c);
    OutsideOthers(s, c.slabs);
    hide *;
    DescriptorsOwned(s.p, s.live, s.home, s.order, s.sh, c.slabs, m, t);
    DescriptorsMissOthers(s.p, s.live, s.home, s.order, s.sh, c.slabs, OthersOf(s, c.slabs), m, t);
    DescriptorsMissObjects(s.sh, c0, c.slabs, m, t);
    MakeDiscreet(s, OthersOf(s, c.slabs), c0, m, t);
  }

  lemma OutsideOthers(s: Site, slabs: map<nat, SlabInfo>)
    ensures Outside(s.p, s.live, s.home, s.order, slabs, OthersOf(s, slabs))
  {
  }

  lemma ObjectFrames(s: Site, c: Cache, m: seq<byte>, t: seq<byte>, h: Heads, c0: Cache, slab: nat, nodes: seq<nat>)
    requires Stocked(s, m, h, c) && slab in c.slabs && AllSlots(s.sh, c.slabs[slab].memory, nodes) &&
             OnlyNodes(m, t, nodes)
    requires Extends(c0.slabs, c.slabs) && FreeIn(c0.slabs, c0.free, slab, nodes)
    ensures Discreet(s, OthersOf(s, c.slabs), c0, m, t)
  {
    StockedParts(s, m, h, c);
    OutsideOthers(s, c.slabs);
    hide *;
    ObjectsOwned(s.p, s.live, s.home, s.order, s.sh, c.slabs, slab, nodes, m, t);
    ObjectsMissOthers(s.p, s.live, s.home, s.order, s.sh, c.slabs, OthersOf(s, c.slabs), slab, nodes, m, t);
    FreeNodesMissObjects(s.sh, c0, c.slabs, slab, nodes, m, t);
    MakeDiscreet(s, OthersOf(s, c.slabs), c0, m, t);
  }

  // A cache with the same slabs in the same places.
  lemma Restocked(s: Site, m: seq<byte>, h: Heads, c: Cache, t: seq<byte>, h': Heads, c': Cache)
    requires Stocked(s, m, h, c) && Represents(s.sh, t, h', c') && Classified(s.sh, c')
    requires c'.slabs.Keys == c.slabs.Keys && Extends(c.slabs, c'.slabs)
    ensures Stocked(s, t, h', c') && OthersOf(s, c'.slabs) == OthersOf(s, c.slabs)
  {
    SamePlaces(s.p, s.live, s.home, s.order, s.sh, c.slabs, c'.slabs);
  }

  lemma PromoteReady(s: Site, m: seq<byte>, h: Heads, c: Cache, slab: nat)
    requires Stocked(s, m, h, c) && slab in c.slabs && c.slabs[slab].objCounter < s.sh.maxObjects
    ensures Represents(s.sh, m, h, c) && Classified(s.sh, Promote(s.sh, c, slab))
    ensures if c.slabs[slab].objCounter == 0 then slab in c.empty else slab in c.partial
  {
    hide *;
    StockedParts(s, m, h, c);
    ClassifiedAt(s.sh, c, slab);
    PromoteClassified(s.sh, c, slab);
  }

  lemma PromoteIs(sh: Shape, c: Cache, slab: nat)
    requires slab in c.slabs
    ensures var n := c.slabs[slab].objCounter;
            && slab in PromoteLists(sh, c, slab, n).slabs
            && Promote(sh, c, slab) == WithCounter(PromoteLists(sh, c, slab, n), slab, n + 1)
  {
  }

  // choose_slab's moves and count for the slab it picked; c0 is any earlier state of the cache.
  method Promoted(mem: array<byte>, h: Heads, slab: nat, n: nat, maxObjects: nat, ghost s: Site, ghost c: Cache,
                  ghost c0: Cache)
    returns (h': Heads)
    requires Stocked(s, mem[..], h, c) && slab in c.slabs &&
             n == c.slabs[slab].objCounter < maxObjects == s.sh.maxObjects
    requires Extends(c0.slabs, c.slabs)
    modifies mem
    ensures Stocked(s, mem[..], h', Promote(s.sh, c, slab))
    ensures Discreet(s, OthersOf(s, c.slabs), c0, old(mem[..]), mem[..]) && RecordsKept(c.slabs, old(mem[..]), mem[..])
    ensures OthersOf(s, Promote(s.sh, c, slab).slabs) == OthersOf(s, c.slabs)
  {
    hide *;
    ghost var m := mem[..];
    PromoteReady(s, m, h, c, slab);
    PromoteIs(s.sh, c, slab);
    h' := PromoteInLists(mem, h, slab, n, maxObjects, s.sh, c);
    CounterChange(s.sh, mem[..], h', PromoteLists(s.sh, c, slab, n), slab, n + 1);
    DescriptorFrames(s, c, m, mem[..], h, c0);
    StockedParts(s, m, h, c);
    LinksKeepRecords(s.sh, c.slabs, m, mem[..]);
    PromoteKeepsPlaces(s.sh, c, slab);
    Restocked(s, m, h, c, mem[..], h', Promote(s.sh, c, slab));
  }

  lemma DemoteReady(s: Site, m: seq<byte>, h: Heads, c: Cache, slab: nat)
    requires Stocked(s, m, h, c) && slab in c.slabs && c.slabs[slab].objCounter > 0
    ensures Represents(s.sh, m, h, c) && Classified(s.sh, Demote(s.sh, c, slab))
    ensures if c.slabs[slab].objCounter == s.sh.maxObjects then slab in c.full else slab in c.partial
  {
    hide *;
    StockedParts(s, m, h, c);
    ClassifiedAt(s.sh, c, slab);
    DemoteClassified(s.sh, c, slab);
  }

  lemma DemoteIs(sh: Shape, c: Cache, slab: nat)
    requires slab in c.slabs && c.slabs[slab].objCounter > 0
    ensures var n := c.slabs[slab].objCounter;
            && slab in DemoteLists(sh, c, slab, n).slabs
            && Demote(sh, c, slab) == WithCounter(DemoteLists(sh, c, slab, n), slab, n - 1)
  {
  }

  // What kmem_cache_free's moves make of the lists, with the counter they are made by.
  lemma DemotedIs(s: Site, m: seq<byte>, h: Heads, c: Cache, t: seq<byte>, h': Heads, slab: nat, c0: Cache)
    requires Stocked(s, m, h, c) && slab in c.slabs && c.slabs[slab].objCounter > 0 && Extends(c0.slabs, c.slabs)
    requires Represents(s.sh, t, h', DemoteLists(s.sh, c, slab, c.slabs[slab].objCounter))
    requires OnlyDescriptors(m, t, c.slabs)
    ensures Stocked(s, t, h', Demote(s.sh, c, slab)) && Discreet(s, OthersOf(s, c.slabs), c0, m, t)
    ensures RecordsKept(c.slabs, m, t) && OthersOf(s, Demote(s.sh, c, slab).slabs) == OthersOf(s, c.slabs)
  {
    hide *;
    var n := c.slabs[slab].objCounter;
    DemoteReady(s, m, h, c, slab);
    DemoteIs(s.sh, c, slab);
    CounterChange(s.sh, t, h', DemoteLists(s.sh, c, slab, n), slab, n - 1);
    DescriptorFrames(s, c, m, t, h, c0);
    StockedParts(s, m, h, c);
    LinksKeepRecords(s.sh, c.slabs, m, t);
    DemoteKeepsPlaces(s.sh, c, slab);
    Restocked(s, m, h, c, t, h', Demote(s.sh, c, slab));
  }

  // The state between the moves: a full slab has left its list, and its counter may go down.
  function Loosened(sh: Shape, c: Cache, slab: nat): Cache
    requires slab in c.slabs && c.slabs[slab].objCounter > 0
  {
    if c.slabs[slab].objCounter == sh.maxObjects then Demote(sh, c, slab) else c
  }

  // kmem_cache_free's move of a full slab to the partial list.
  method LeaveFull(mem: array<byte>, h: Heads, slab: nat, n: nat, maxObjects: nat, ghost s: Site, ghost c: Cache,
                   ghost c0: Cache)
    returns (h': Heads)
    requires Stocked(s, mem[..], h, c) && slab in c.slabs && 0 < n == c.slabs[slab].objCounter
    requires maxObjects == s.sh.maxObjects && Extends(c0.slabs, c.slabs)
    modifies mem
    ensures Stocked(s, mem[..], h', Loosened(s.sh, c, slab)) && Loosened(s.sh, c, slab).slabs.Keys == c.slabs.Keys
    ensures Discreet(s, OthersOf(s, c.slabs), c0, old(mem[..]), mem[..]) && RecordsKept(c.slabs, old(mem[..]), mem[..])
    ensures OthersOf(s, Loosened(s.sh, c, slab).slabs) == OthersOf(s, c.slabs)
    ensures Extends(c.slabs, Loosened(s.sh, c, slab).slabs)
  {
    hide *;
    ghost var m := mem[..];
    h' := h;
    LoosenedIs(s.sh, c, slab);
    DemoteKeepsPlaces(s.sh, c, slab);
    if n == maxObjects {
      DemoteReady(s, m, h, c, slab);
      OneMove(s, m, h, c, slab);
      h' := FullToPartial(mem, h, slab, s.sh, c);
      DemotedIs(s, m, h, c, mem[..], h', slab, c0);
    } else {
      NothingMoved(s, m, h, c, c0);
    }
  }

  // kmem_cache_free's move of a slab without objects in use to the empty list; n is the new counter.
  method JoinEmpty(mem: array<byte>, h: Heads, slab: nat, n: nat, ghost s: Site, ghost c: Cache, ghost c0: Cache)
    returns (h': Heads)
    requires slab in c.slabs && n + 1 == c.slabs[slab].objCounter
    requires Stocked(s, mem[..], h, Loosened(s.sh, c, slab)) && Extends(c0.slabs, Loosened(s.sh, c, slab).slabs)
    modifies mem
    ensures Stocked(s, mem[..], h', Demote(s.sh, c, slab))
    ensures var l := Loosened(s.sh, c, slab).slabs;
            && Discreet(s, OthersOf(s, l), c0, old(mem[..]), mem[..]) && RecordsKept(l, old(mem[..]), mem[..])
            && OthersOf(s, Demote(s.sh, c, slab).slabs) == OthersOf(s, l)
  {
    hide *;
    ghost var m, l := mem[..], Loosened(s.sh, c, slab);
    h' := h;
    LoosenedIs(s.sh, c, slab);
    StockedParts(s, m, h, l);
    FullNotOne(s.sh);
    if n == 0 {
      DemoteReady(s, m, h, c, slab);
      OneMove(s, m, h, c, slab);
      h' := PartialToEmpty(mem, h, slab, s.sh, c);
      DemotedIs(s, m, h, c, mem[..], h', slab, c0);
    } else if n + 1 == s.sh.maxObjects {
      NothingMoved(s, m, h, l, c0);
    } else {
      DemoteReady(s, m, h, c, slab);
      OneMove(s, m, h, c, slab);
      SameDescriptors(m, c.slabs);
      DemotedIs(s, m, h, c, m, h, slab, c0);
    }
  }

  lemma LoosenedIs(sh: Shape, c: Cache, slab: nat)
    requires slab in c.slabs && c.slabs[slab].objCounter > 0
    ensures Loosened(sh, c, slab) == if c.slabs[slab].objCounter == sh.maxObjects then Demote(sh, c, slab) else c
    ensures Extends(c.slabs, c.slabs)
  {
  }

  lemma FullNotOne(sh: Shape)
    requires ShapeOk(sh)
    ensures sh.maxObjects > 1
  {
  }

  // A slab moves between two lists at most, as it holds eight objects or more.
  lemma OneMove(s: Site, m: seq<byte>, h: Heads, c: Cache, slab: nat)
    requires Stocked(s, m, h, c) && slab in c.slabs && c.slabs[slab].objCounter > 0
    ensures DemoteLists(s.sh, c, slab, c.slabs[slab].objCounter) ==
            if c.slabs[slab].objCounter == s.sh.maxObjects then
              c.(full := Without(c.full, slab), partial := [slab] + c.partial)
            else if c.slabs[slab].objCounter == 1 then
              c.(partial := Without(c.partial, slab), empty := [slab] + c.empty)
            else c
  {
  }

  lemma SameDescriptors(m: seq<byte>, slabs: map<nat, SlabInfo>)
    ensures OnlyDescriptors(m, m, slabs)
  {
  }

  lemma NothingMoved(s: Site, m: seq<byte>, h: Heads, c: Cache, c0: Cache)
    requires Stocked(s, m, h, c) && Extends(c0.slabs, c.slabs)
    ensures Discreet(s, OthersOf(s, c.slabs), c0, m, m) && RecordsKept(c.slabs, m, m)
  {
    hide *;
    StockedParts(s, m, h, c);
    SameDescriptors(m, c.slabs);
    DescriptorFrames(s, c, m, m, h, c0);
    LinksKeepRecords(s.sh, c.slabs, m, m);
  }

  lemma FreeAreSlots(s: Site, m: seq<byte>, h: Heads, c: Cache, slab: nat)
    requires Stocked(s, m, h, c) && slab in c.slabs
    ensures slab in c.free && AllSlots(s.sh, c.slabs[slab].memory, c.free[slab])
  {
  }

  // list_pop on a slab's free list.
  method Popped(mem: array<byte>, h: Heads, slab: nat, freeList: nat, ghost s: Site, ghost c: Cache, ghost c0: Cache)
    returns (o: nat, head: nat)
    requires Stocked(s, mem[..], h, c) && slab in c.slabs && slab in c.free && c.free[slab] != []
    requires freeList == c.slabs[slab].freeList && Extends(c0.slabs, c.slabs) &&
             FreeIn(c0.slabs, c0.free, slab, c.free[slab])
    modifies mem
    ensures o == c.free[slab][0] && Stocked(s, mem[..], h, WithFree(c, slab, head, c.free[slab][1..]))
    ensures Discreet(s, OthersOf(s, c.slabs), c0, old(mem[..]), mem[..]) && RecordsKept(c.slabs, old(mem[..]), mem[..])
    ensures OthersOf(s, WithFree(c, slab, head, c.free[slab][1..]).slabs) == OthersOf(s, c.slabs)
  {
    hide *;
    ghost var m := mem[..];
    StockedParts(s, m, h, c);
    FreeAreSlots(s, m, h, c, slab);
    o, head := PopObject(mem, freeList, s.sh, h, c, slab);
    ObjectFrames(s, c, m, mem[..], h, c0, slab, c.free[slab]);
    ObjectsKeepRecords(s.sh, c.slabs, slab, m, mem[..], c.free[slab]);
    FreeKeepsPlaces(c, slab, head, c.free[slab][1..]);
    FreeKeepsClass(s.sh, c, slab, head, c.free[slab][1..]);
    Restocked(s, m, h, c, mem[..], h, WithFree(c, slab, head, c.free[slab][1..]));
  }

  // list_push of a slab's own object on its free list.
  method Pushed(mem: array<byte>, h: Heads, slab: nat, freeList: nat, o: nat, ghost s: Site, ghost c: Cache,
                ghost c0: Cache)
    returns (head: nat)
    requires Stocked(s, mem[..], h, c) && slab in c.slabs && slab in c.free && freeList == c.slabs[slab].freeList
    requires IsSlot(s.sh, c.slabs[slab].memory, o) && o !in c.free[slab]
    requires Extends(c0.slabs, c.slabs) && FreeIn(c0.slabs, c0.free, slab, [o] + c.free[slab])
    modifies mem
    ensures head == o && Stocked(s, mem[..], h, WithFree(c, slab, head, [o] + c.free[slab]))
    ensures Discreet(s, OthersOf(s, c.slabs), c0, old(mem[..]), mem[..]) && RecordsKept(c.slabs, old(mem[..]), mem[..])
    ensures OthersOf(s, WithFree(c, slab, head, [o] + c.free[slab]).slabs) == OthersOf(s, c.slabs)
  {
    hide *;
    ghost var m, f := mem[..], [o] + c.free[slab];
    StockedParts(s, m, h, c);
    FreeAreSlots(s, m, h, c, slab);
    MoreSlots(s.sh, c.slabs[slab].memory, o, c.free[slab]);
    head := PushObject(mem, freeList, o, s.sh, h, c, slab);
    ObjectFrames(s, c, m, mem[..], h, c0, slab, f);
    ObjectsKeepRecords(s.sh, c.slabs, slab, m, mem[..], f);
    FreeKeepsPlaces(c, slab, head, f);
    FreeKeepsClass(s.sh, c, slab, head, f);
    Restocked(s, m, h, c, mem[..], h, WithFree(c, slab, head, f));
  }

  lemma MoreSlots(sh: Shape, memory: nat, o: nat, f: seq<nat>)
    requires IsSlot(sh, memory, o) && AllSlots(sh, memory, f)
    ensures AllSlots(sh, memory, [o] + f)
  {
  }

  // ----- writes by the users of objects

  // Byte i belongs to a live object, or to a free one beyond its two link words.
  ghost predicate Writable(sh: Shape, c: Cache, i: int) {
    exists a, o :: WritableIn(sh, c, a, o, i)
  }

  ghost predicate WritableIn(sh: Shape, c: Cache, a: nat, o: nat, i: int) {
    && a in c.slabs && a in c.free && IsSlot(sh, c.slabs[a].memory, o) && o <= i < o + sh.objSize
    && (o in c.free[a] ==> o + 16 <= i)
  }

  ghost predicate OnlyWritable(sh: Shape, c: Cache, m: seq<byte>, t: seq<byte>) {
    |m| == |t| && forall i {:trigger Writable(sh, c, i)} :: 0 <= i < |m| && !Writable(sh, c, i) ==> m[i] == t[i]
  }

  lemma WritableWhere(sh: Shape, c: Cache, i: int) returns (a: nat, o: nat)
    requires ShapeOk(sh) && Writable(sh, c, i)
    ensures WritableIn(sh, c, a, o, i) && a in c.slabs && c.slabs[a].memory <= i < c.slabs[a].memory + sh.slabSize
  {
    a, o :| WritableIn(sh, c, a, o, i);
    SlotInside(sh, c.slabs[a].memory, o);
  }

  lemma WritesMissPages(sh: Shape, c: Cache, m: seq<byte>, t: seq<byte>)
    requires ShapeOk(sh) && Spread(sh, c.slabs, |m|) && OnlyWritable(sh, c, m, t)
    ensures forall a :: a in c.slabs ==> SameBytes(m, t, a, a + 4096)
  {
    hide Writable, WritableIn;
    forall a, i | a in c.slabs && a <= i < a + 4096
      ensures SameByte(m, t, i)
    {
      if Writable(sh, c, i) {
        var b, o := WritableWhere(sh, c, i);
      }
    }
  }

  lemma WritesMissFree(sh: Shape, c: Cache, m: seq<byte>, t: seq<byte>, a: nat, e: nat)
    requires ShapeOk(sh) && Spread(sh, c.slabs, |m|) && OnlyWritable(sh, c, m, t)
    requires a in c.slabs && a in c.free && e in c.free[a] && IsSlot(sh, c.slabs[a].memory, e)
    ensures e + 16 <= |m| && SameNode(m, t, e)
  {
    SlotInside(sh, c.slabs[a].memory, e);
    hide Writable, IsSlot;
    forall i | e <= i < e + 16
      ensures SameByte(m, t, i)
    {
      if Writable(sh, c, i) {
        var b, o := WritableWhere(sh, c, i);
        if b == a && o != e {
          SlotsApart(sh, c.slabs[a].memory, e, o);
        }
      }
    }
    SameBytesNode(m, t, e, e + 16, e);
  }

  // Whatever the holders of live objects write in them, every list stays well formed.
  lemma WritesHarmless(s: Site, m: seq<byte>, h: Heads, c: Cache, t: seq<byte>)
    requires Stocked(s, m, h, c) && OnlyWritable(s.sh, c, m, t)
    ensures Stocked(s, t, h, c)
  {
    hide *;
    StockedParts(s, m, h, c);
    RepresentsParts(s.sh, m, h, c);
    WritesMissPages(s.sh, c, m, t);
    WritesLength(s.sh, c, m, t);
    MakeSlabLists(m, h, c);
    SlabListsKept(m, t, h, c);
    SlabListsParts(t, h, c);
    WritesMissLists(s.sh, c, m, t);
    MakeRepresents(s.sh, t, h, c);
    MakeStocked(s, t, h, c);
  }

  lemma MakeSlabLists(m: seq<byte>, h: Heads, c: Cache)
    requires Linked(m, 0, h.empty, c.empty) && Linked(m, 0, h.partial, c.partial) && Linked(m, 0, h.full, c.full)
    ensures SlabLists(m, h, c)
  {
  }

  lemma WritesMissLists(sh: Shape, c: Cache, m: seq<byte>, t: seq<byte>)
    requires ShapeOk(sh) && Spread(sh, c.slabs, |m|) && OnlyWritable(sh, c, m, t)
    requires FreeSlots(sh, c.slabs, c.free) && ObjectLists(m, c.slabs, c.free)
    ensures ObjectLists(t, c.slabs, c.free)
  {
    hide ShapeOk, Linked, Spread, IsSlot, OnlyWritable, SameNode;
    forall a | a in c.slabs
      ensures Linked(t, 0, c.slabs[a].freeList, c.free[a])
    {
      forall e | e in c.free[a]
        ensures SameNode(m, t, e)
      {
        WritesMissFree(sh, c, m, t, a, e);
      }
      LinkedKept(m, t, 0, c.slabs[a].freeList, c.free[a]);
    }
  }

  lemma WritesLength(sh: Shape, c: Cache, m: seq<byte>, t: seq<byte>)
    requires OnlyWritable(sh, c, m, t)
    ensures |m| == |t|
  {
  }

  // Objects lie in the cache's own live blocks.
  lemma WritesOwned(s: Site, m: seq<byte>, h: Heads, c: Cache, t: seq<byte>)
    requires Stocked(s, m, h, c) && OnlyWritable(s.sh, c, m, t)
    ensures OwnedOnly(s.p.n, s.p.start, m, t, s.live) && Kept(s.p.n, s.p.start, m, t, OthersOf(s, c.slabs))
  {
    hide Stocked, OthersOf, Owned, Writable;
    forall i | 0 <= i < |m| && m[i] != t[i]
      ensures Owned(s.p.n, s.p.start, s.live, i) && !Owned(s.p.n, s.p.start, OthersOf(s, c.slabs), i)
    {
      assert Writable(s.sh, c, i);
      WritableByteOwned(s, m, h, c, i);
    }
  }

  lemma WritableByteOwned(s: Site, m: seq<byte>, h: Heads, c: Cache, i: int)
    requires Stocked(s, m, h, c) && Writable(s.sh, c, i)
    ensures Owned(s.p.n, s.p.start, s.live, i) && !Owned(s.p.n, s.p.start, OthersOf(s, c.slabs), i)
  {
    hide *;
    StockedParts(s, m, h, c);
    OutsideOthers(s, c.slabs);
    var a, o := WritableWhere(s.sh, c, i);
    MemoryByteOwned(s, c.slabs, a, OthersOf(s, c.slabs), i);
  }

  lemma MemoryByteOwned(s: Site, slabs: map<nat, SlabInfo>, b: nat, others: set<nat>, i: int)
    requires Owns(s.p, s.live, s.home, s.order, s.sh, slabs) && Separate(s.live) && b in slabs
    requires Outside(s.p, s.live, s.home, s.order, slabs, others)
    requires slabs[b].memory <= i < slabs[b].memory + s.sh.slabSize
    ensures Owned(s.p.n, s.p.start, s.live, i) && !Owned(s.p.n, s.p.start, others, i)
  {
    OwnsMemory(s.p, s.live, s.home, s.order, s.sh, slabs, b, others);
    hide *;
    LiveByte(s.p, s.live, slabs[b].memory, s.order, i);
    NotOthers(s.p, s.live, others, slabs[b].memory, s.order, i);
  }

  // ----- the buddy allocator at work

  // What the buddy allocator does on behalf of anyone leaves the cache as it is.
  lemma BuddyKeepsStocked(s: Site, m: seq<byte>, h: Heads, c: Cache, more: set<nat>, t: seq<byte>)
    requires Stocked(s, m, h, c) && Kept(s.p.n, s.p.start, m, t, s.live) && s.live <= more && Separate(more)
    ensures Stocked(s.(live := more), t, h, c)
  {
    hide *;
    StockedParts(s, m, h, c);
    BuddyKeepsCache(s.p, s.sh, m, t, s.live, s.home, s.order, h, c);
    OwnsMore(s.p, s.live, more, s.home, s.order, s.sh, c.slabs);
    MakeStocked(s.(live := more), t, h, c);
  }

  lemma MakeStocked(s: Site, m: seq<byte>, h: Heads, c: Cache)
    requires Represents(s.sh, m, h, c) && Classified(s.sh, c)
    requires Separate(s.live) && Owns(s.p, s.live, s.home, s.order, s.sh, c.slabs)
    ensures Stocked(s, m, h, c)
  {
  }

  // Bytes that the buddy allocator keeps for all live blocks are kept for the others and the live objects.
  lemma KeptAround(s: Site, m: seq<byte>, h: Heads, c: Cache, t: seq<byte>)
    requires Stocked(s, m, h, c) && Kept(s.p.n, s.p.start, m, t, s.live)
    ensures Kept(s.p.n, s.p.start, m, t, OthersOf(s, c.slabs)) && ObjectsKept(s.sh, c, m, t)
  {
    hide *;
    StockedParts(s, m, h, c);
    OutsideOthers(s, c.slabs);
    FewerOthers(s, c.slabs);
    KeptSubset(s.p.n, s.p.start, m, t, s.live, OthersOf(s, c.slabs));
    KeptObjects(s.p, s.live, s.home, s.order, s.sh, c, m, t);
  }

  lemma FewerOthers(s: Site, slabs: map<nat, SlabInfo>)
    ensures OthersOf(s, slabs) <= s.live
  {
  }

  // A slab of the cache that is on no list yet.
  ghost predicate Loose(s: Site, m: seq<byte>, h: Heads, c: Cache, slab: nat) {
    && Represents(s.sh, m, h, c) && Separate(s.live) && Owns(s.p, s.live, s.home, s.order, s.sh, c.slabs)
    && slab in c.slabs && slab !in c.empty && slab !in c.partial && slab !in c.full
  }

  // The empty list takes in the loose slab.
  method PushedEmpty(mem: array<byte>, h: Heads, slab: nat, ghost s: Site, ghost c: Cache, ghost c0: Cache)
    returns (h': Heads)
    requires Loose(s, mem[..], h, c, slab) && Extends(c0.slabs, c.slabs)
    modifies mem
    ensures Represents(s.sh, mem[..], h', c.(empty := [slab] + c.empty))
    ensures Discreet(s, OthersOf(s, c.slabs), c0, old(mem[..]), mem[..]) && RecordsKept(c.slabs, old(mem[..]), mem[..])
  {
    ghost var m := mem[..];
    assert ShapeOk(s.sh) && Spread(s.sh, c.slabs, |m|);
    OutsideOthers(s, c.slabs);
    hide *;
    h' := PushEmpty(mem, h, slab, s.sh, c);
    DescriptorsOwned(s.p, s.live, s.home, s.order, s.sh, c.slabs, m, mem[..]);
    DescriptorsMissOthers(s.p, s.live, s.home, s.order, s.sh, c.slabs, OthersOf(s, c.slabs), m, mem[..]);
    DescriptorsMissObjects(s.sh, c0, c.slabs, m, mem[..]);
    LinksKeepRecords(s.sh, c.slabs, m, mem[..]);
    MakeDiscreet(s, OthersOf(s, c.slabs), c0, m, mem[..]);
  }
}
