// A slab cache on values: the three slab lists, the records of the slabs, and the free objects of
// each slab. The cache class is proved against these definitions.
module SlabSpec {
  import opened Powers
  import opened Sequences
  import opened Memory64

  // The fields of struct slab besides its two links.
  datatype SlabInfo = SlabInfo(freeList: nat, memory: nat, objCounter: nat)

  // The sizes fixed when a cache is created.
  datatype Shape = Shape(objSize: nat, slabSize: nat, maxObjects: nat)

  datatype Cache = Cache(empty: seq<nat>, partial: seq<nat>, full: seq<nat>,
                         slabs: map<nat, SlabInfo>, free: map<nat, seq<nat>>)

  // A slab has room for eight objects, and for so few that its counter never overflows.
  ghost predicate ShapeOk(sh: Shape) {
    sh.objSize >= 16 && 8 <= sh.maxObjects <= 256 && sh.maxObjects * sh.objSize <= sh.slabSize
  }

  function Slot(sh: Shape, memory: nat, i: nat): nat {
    memory + i * sh.objSize
  }

  ghost predicate IsSlot(sh: Shape, memory: nat, o: nat) {
    exists i: nat :: i < sh.maxObjects && o == Slot(sh, memory, i)
  }

  predicate ObjectsApart(sh: Shape, a: nat, b: nat) {
    a + sh.objSize <= b || b + sh.objSize <= a
  }

  lemma SlotInside(sh: Shape, memory: nat, o: nat)
    requires ShapeOk(sh) && IsSlot(sh, memory, o)
    ensures memory <= o && o + sh.objSize <= memory + sh.slabSize
  {
    var i: nat :| i < sh.maxObjects && o == Slot(sh, memory, i);
    ScaleLess(i, sh.maxObjects, sh.objSize);
  }

  lemma SlotsApart(sh: Shape, memory: nat, a: nat, b: nat)
    requires IsSlot(sh, memory, a) && IsSlot(sh, memory, b) && a != b
    ensures ObjectsApart(sh, a, b)
  {
    var i: nat :| i < sh.maxObjects && a == Slot(sh, memory, i);
    var j: nat :| j < sh.maxObjects && b == Slot(sh, memory, j);
    if i < j {
      ScaleLess(i, j, sh.objSize);
    } else {
      ScaleLess(j, i, sh.objSize);
    }
  }

  // ----- where things lie

  predicate Disjoint(a: nat, s: nat, b: nat, t: nat) {
    a + s <= b || b + t <= a
  }

  // Descriptor pages and object memories, of one slab or of two, never overlap.
  ghost predicate Spread(sh: Shape, slabs: map<nat, SlabInfo>, size: nat) {
    && size <= TWO_TO_64
    && (forall a :: a in slabs ==>
       0 < a && a + 4096 <= size && 0 < slabs[a].memory && slabs[a].memory + sh.slabSize <= size)
    && (forall a, b :: a in slabs && b in slabs && a != b ==> Disjoint(a, 4096, b, 4096))
    && (forall a, b :: a in slabs && b in slabs && a != b ==>
       Disjoint(slabs[a].memory, sh.slabSize, slabs[b].memory, sh.slabSize))
    && (forall a, b :: a in slabs && b in slabs ==> Disjoint(a, 4096, slabs[b].memory, sh.slabSize))
  }

  ghost predicate FreeSlots(sh: Shape, slabs: map<nat, SlabInfo>, free: map<nat, seq<nat>>) {
    && slabs.Keys == free.Keys
    && forall a, o :: a in slabs && o in free[a] ==> IsSlot(sh, slabs[a].memory, o)
  }

  // An object handed out and not yet given back.
  ghost predicate Live(sh: Shape, c: Cache, o: nat) {
    exists a :: LiveOf(sh, c, a, o)
  }

  ghost predicate LiveOf(sh: Shape, c: Cache, a: nat, o: nat) {
    a in c.slabs && a in c.free && IsSlot(sh, c.slabs[a].memory, o) && o !in c.free[a]
  }

  // ----- which slab is on which list

  ghost predicate Classified(sh: Shape, c: Cache) {
    && NoDup(c.empty) && NoDup(c.partial) && NoDup(c.full)
    && (forall a :: a in c.empty <==> a in c.slabs && c.slabs[a].objCounter == 0)
    && (forall a :: a in c.partial <==> a in c.slabs && 0 < c.slabs[a].objCounter < sh.maxObjects)
    && (forall a :: a in c.full <==> a in c.slabs && c.slabs[a].objCounter == sh.maxObjects)
    && (forall a :: a in c.slabs ==> c.slabs[a].objCounter <= sh.maxObjects)
  }

  ghost predicate Counted(sh: Shape, slabs: map<nat, SlabInfo>, free: map<nat, seq<nat>>) {
    slabs.Keys == free.Keys && forall a :: a in slabs ==> slabs[a].objCounter + |free[a]| == sh.maxObjects
  }

  // choose_slab's moves between the lists once slab a, with n objects in use, is picked.
  function PromoteLists(sh: Shape, c: Cache, a: nat, n: nat): Cache {
    var c1 := if n == 0 then c.(empty := Without(c.empty, a), partial := [a] + c.partial) else c;
    if n == sh.maxObjects - 1 then c1.(partial := Without(c1.partial, a), full := [a] + c1.full) else c1
  }

  // kmem_cache_free's moves between the lists for a slab with n objects in use.
  function DemoteLists(sh: Shape, c: Cache, a: nat, n: nat): Cache {
    var c1 := if n == sh.maxObjects then c.(full := Without(c.full, a), partial := [a] + c.partial) else c;
    if n == 1 then c1.(partial := Without(c1.partial, a), empty := [a] + c1.empty) else c1
  }

  function WithCounter(c: Cache, a: nat, n: nat): Cache
    requires a in c.slabs
  {
    c.(slabs := c.slabs[a := c.slabs[a].(objCounter := n)])
  }

  function WithFree(c: Cache, a: nat, head: nat, f: seq<nat>): Cache
    requires a in c.slabs
  {
    c.(slabs := c.slabs[a := c.slabs[a].(freeList := head)], free := c.free[a := f])
  }

  function Promote(sh: Shape, c: Cache, a: nat): Cache
    requires a in c.slabs
  {
    var n := c.slabs[a].objCounter;
    WithCounter(PromoteLists(sh, c, a, n), a, n + 1)
  }

  function Demote(sh: Shape, c: Cache, a: nat): Cache
    requires a in c.slabs && c.slabs[a].objCounter > 0
  {
    var n := c.slabs[a].objCounter;
    WithCounter(DemoteLists(sh, c, a, n), a, n - 1)
  }

  // Where a slab is, by its counter.
  lemma ClassifiedAt(sh: Shape, c: Cache, a: nat)
    requires ShapeOk(sh) && Classified(sh, c) && a in c.slabs
    ensures c.slabs[a].objCounter == 0 ==> a in c.empty
    ensures 0 < c.slabs[a].objCounter < sh.maxObjects ==> a in c.partial
    ensures c.slabs[a].objCounter == sh.maxObjects ==> a in c.full
    ensures c.slabs[a].objCounter <= sh.maxObjects
  {
  }

  lemma PromoteClassified(sh: Shape, c: Cache, a: nat)
    requires ShapeOk(sh) && Classified(sh, c) && a in c.slabs && c.slabs[a].objCounter < sh.maxObjects
    ensures Classified(sh, Promote(sh, c, a))
  {
    hide *;
    ClassifiedParts(sh, c);
    WithoutMember(c.empty, a);
    WithoutMember(c.partial, a);
    var n, r := c.slabs[a].objCounter, Promote(sh, c, a);
    PromoteParts(sh, c, a);
    if n == 0 {
      PushMember(c.partial, a);
    } else if n == sh.maxObjects - 1 {
      PushMember(c.full, a);
    }
    assert forall b :: b in r.slabs ==> r.slabs[b].objCounter == if b == a then n + 1 else c.slabs[b].objCounter;
    MakeClassified(sh, r);
  }

  lemma ClassifiedParts(sh: Shape, c: Cache)
    requires ShapeOk(sh) && Classified(sh, c)
    ensures sh.maxObjects >= 8 && NoDup(c.empty) && NoDup(c.partial) && NoDup(c.full)
    ensures forall a :: a in c.empty <==> a in c.slabs && c.slabs[a].objCounter == 0
    ensures forall a :: a in c.partial <==> a in c.slabs && 0 < c.slabs[a].objCounter < sh.maxObjects
    ensures forall a :: a in c.full <==> a in c.slabs && c.slabs[a].objCounter == sh.maxObjects
    ensures forall a :: a in c.slabs ==> c.slabs[a].objCounter <= sh.maxObjects
  {
    hide NoDup;
  }

  lemma MakeClassified(sh: Shape, c: Cache)
    requires NoDup(c.empty) && NoDup(c.partial) && NoDup(c.full)
    requires forall a :: a in c.empty <==> a in c.slabs && c.slabs[a].objCounter == 0
    requires forall a :: a in c.partial <==> a in c.slabs && 0 < c.slabs[a].objCounter < sh.maxObjects
    requires forall a :: a in c.full <==> a in c.slabs && c.slabs[a].objCounter == sh.maxObjects
    requires forall a :: a in c.slabs ==> c.slabs[a].objCounter <= sh.maxObjects
    ensures Classified(sh, c)
  {
    hide NoDup;
  }

  lemma PromoteParts(sh: Shape, c: Cache, a: nat)
    requires ShapeOk(sh) && a in c.slabs
    ensures var n, r := c.slabs[a].objCounter, Promote(sh, c, a);
            && r.slabs == c.slabs[a := c.slabs[a].(objCounter := n + 1)]
            && r.empty == (if n == 0 then Without(c.empty, a) else c.empty)
            && r.partial == (if n == 0 then [a] + c.partial
                             else if n == sh.maxObjects - 1 then Without(c.partial, a) else c.partial)
            && r.full == (if n == sh.maxObjects - 1 then [a] + c.full else c.full)
  {
    hide Without;
  }

  lemma DemoteClassified(sh: Shape, c: Cache, a: nat)
    requires ShapeOk(sh) && Classified(sh, c) && a in c.slabs && c.slabs[a].objCounter > 0
    ensures Classified(sh, Demote(sh, c, a))
  {
    WithoutMember(c.full, a);
    WithoutMember(c.partial, a);
    if c.slabs[a].objCounter == sh.maxObjects {
      PushMember(c.partial, a);
    } else if c.slabs[a].objCounter == 1 {
      PushMember(c.empty, a);
    }
  }

  // A cache that took in slab a, all of whose objects f are free, on its empty list.
  function Grown(c: Cache, a: nat, memory: nat, f: seq<nat>): Cache {
    c.(empty := [a] + c.empty, slabs := c.slabs[a := SlabInfo(memory, memory, 0)], free := c.free[a := f])
  }

  lemma GrownClassified(sh: Shape, c: Cache, a: nat, memory: nat, f: seq<nat>)
    requires ShapeOk(sh) && Classified(sh, c) && a !in c.slabs
    ensures Classified(sh, Grown(c, a, memory, f))
  {
    PushMember(c.empty, a);
  }

  // Slab a is the last one of l with the most objects in use.
  ghost predicate LastFullest(slabs: map<nat, SlabInfo>, l: seq<nat>, a: nat) {
    && a in l && a in slabs
    && (forall b :: b in l && b in slabs ==> slabs[b].objCounter <= slabs[a].objCounter)
    && (forall i, k :: 0 <= i < k < |l| && l[i] == a && l[k] in slabs ==> slabs[l[k]].objCounter < slabs[a].objCounter)
  }

  // The slab choose_slab picks: the last partial one with the most objects in use, else the first empty one.
  ghost predicate Chosen(c: Cache, a: nat) {
    if c.partial != [] then LastFullest(c.slabs, c.partial, a) else c.empty != [] && a == c.empty[0]
  }
}
