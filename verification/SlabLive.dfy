// The objects handed out by a cache: how they lie, and how each operation changes which they are.
module SlabLive {
  import opened Sequences
  import opened Memory64
  import opened DList
  import opened SlabSpec
  import opened SlabMemory
  import opened SlabLinking
  import opened SlabFrames
  import opened SlabBlocks
  import opened SlabSteps

  // Two live objects never overlap.
  lemma LiveApart(sh: Shape, c: Cache, size: nat, x: nat, y: nat)
    requires ShapeOk(sh) && Spread(sh, c.slabs, size) && Live(sh, c, x) && Live(sh, c, y) && x != y
    ensures ObjectsApart(sh, x, y)
  {
    hide Live, IsSlot;
    var a := LiveWhere(sh, c, x);
    var b := LiveWhere(sh, c, y);
    if a == b {
      SlotsApart(sh, c.slabs[a].memory, x, y);
    }
  }

  // An address belongs to the memory of at most one slab.
  lemma OneSlab(sh: Shape, c: Cache, size: nat, a: nat, b: nat, x: nat)
    requires Spread(sh, c.slabs, size) && a in c.slabs && b in c.slabs
    requires c.slabs[a].memory <= x < c.slabs[a].memory + sh.slabSize &&
             c.slabs[b].memory <= x < c.slabs[b].memory + sh.slabSize
    ensures a == b
  {
  }

  lemma SlotAmongSlots(sh: Shape, memory: nat, x: nat)
    requires IsSlot(sh, memory, x)
    ensures x in Slots(sh, memory)
  {
    var i: nat :| i < sh.maxObjects && x == Slot(sh, memory, i);
    assert Slots(sh, memory)[i] == x;
  }

  // Taking in a slab of free objects makes nothing live.
  lemma GrownLive(sh: Shape, c: Cache, a: nat, memory: nat, x: nat)
    requires ShapeOk(sh) && a !in c.slabs
    ensures Live(sh, Grown(c, a, memory, Slots(sh, memory)), x) <==> Live(sh, c, x)
  {
    var g := Grown(c, a, memory, Slots(sh, memory));
    hide IsSlot;
    assert forall b :: b != a ==> (LiveOf(sh, g, b, x) <==> LiveOf(sh, c, b, x));
    if IsSlot(sh, memory, x) {
      SlotAmongSlots(sh, memory, x);
    }
    assert !LiveOf(sh, g, a, x) && !LiveOf(sh, c, a, x);
  }

  // c' has the slabs of c in the same places, and the free list of slab a became f.
  ghost predicate FreeBecame(c: Cache, c': Cache, a: nat, f: seq<nat>) {
    && a in c.slabs && a in c.free && c'.slabs.Keys == c.slabs.Keys && Extends(c.slabs, c'.slabs) &&
       c'.free == c.free[a := f]
  }

  // Object x of slab b stays as it was when another slab's free list changes.
  lemma SameElsewhere(sh: Shape, c: Cache, c': Cache, a: nat, f: seq<nat>, b: nat, x: nat)
    requires FreeBecame(c, c', a, f) && b != a
    ensures LiveOf(sh, c', b, x) <==> LiveOf(sh, c, b, x)
  {
    hide IsSlot;
  }

  // The live objects after slab a's free list became f: those of the other slabs, and a's slots not in f.
  lemma BecameLive(sh: Shape, c: Cache, c': Cache, a: nat, f: seq<nat>, x: nat)
    requires FreeBecame(c, c', a, f)
    ensures Live(sh, c', x) <==>
            (exists b :: b != a && LiveOf(sh, c, b, x)) || (IsSlot(sh, c.slabs[a].memory, x) && x !in f)
    ensures Live(sh, c, x) <==>
            (exists b :: b != a && LiveOf(sh, c, b, x)) || (IsSlot(sh, c.slabs[a].memory, x) && x !in c.free[a])
  {
    hide IsSlot;
    assert LiveOf(sh, c', a, x) <==> IsSlot(sh, c.slabs[a].memory, x) && x !in f;
    assert LiveOf(sh, c, a, x) <==> IsSlot(sh, c.slabs[a].memory, x) && x !in c.free[a];
    forall b | b != a
      ensures LiveOf(sh, c', b, x) <==> LiveOf(sh, c, b, x)
    {
      SameElsewhere(sh, c, c', a, f, b, x);
    }
  }

  // No other slab has a slot of slab a.
  lemma NotElsewhere(sh: Shape, c: Cache, size: nat, a: nat, x: nat)
    requires ShapeOk(sh) && Spread(sh, c.slabs, size) && a in c.slabs && IsSlot(sh, c.slabs[a].memory, x)
    ensures !exists b :: b != a && LiveOf(sh, c, b, x)
  {
    hide IsSlot, Spread;
    SlotInside(sh, c.slabs[a].memory, x);
    forall b | LiveOf(sh, c, b, x)
      ensures b == a
    {
      SlotInside(sh, c.slabs[b].memory, x);
      OneSlab(sh, c, size, a, b, x);
    }
  }

  // Popping object o makes it live and changes nothing else.
  lemma TakenLive(sh: Shape, c: Cache, size: nat, c': Cache, a: nat, x: nat)
    requires ShapeOk(sh) && Spread(sh, c.slabs, size) && FreeSlots(sh, c.slabs, c.free) && a in c.slabs && a in c.free
    requires c.free[a] != [] && NoDup(c.free[a]) && FreeBecame(c, c', a, c.free[a][1..])
    ensures !Live(sh, c, c.free[a][0])
    ensures Live(sh, c', x) <==> x == c.free[a][0] || Live(sh, c, x)
  {
    var o, f := c.free[a][0], c.free[a];
    TailMember(f);
    assert o in f;
    assert IsSlot(sh, c.slabs[a].memory, o);
    hide IsSlot, Spread, Live, LiveOf, FreeSlots, NoDup;
    NotElsewhere(sh, c, size, a, o);
    BecameLive(sh, c, c', a, f[1..], x);
    BecameLive(sh, c, c', a, f[1..], o);
  }

  // Pushing the live object o back makes it free and changes nothing else.
  lemma GivenLive(sh: Shape, c: Cache, size: nat, c': Cache, a: nat, o: nat, x: nat)
    requires ShapeOk(sh) && Spread(sh, c.slabs, size) && a in c.slabs && a in c.free
    requires IsSlot(sh, c.slabs[a].memory, o) && FreeBecame(c, c', a, [o] + c.free[a])
    ensures Live(sh, c', x) <==> x != o && Live(sh, c, x)
  {
    var f := c.free[a];
    assert forall y: nat :: y in [o] + f <==> y == o || y in f;
    hide IsSlot, Spread, Live, LiveOf;
    NotElsewhere(sh, c, size, a, o);
    BecameLive(sh, c, c', a, [o] + f, x);
  }

  // Slabs in the same places with the same free lists have the same live objects.
  lemma SameLive(sh: Shape, c: Cache, c': Cache, x: nat)
    requires ShapeOk(sh) && c'.slabs.Keys == c.slabs.Keys && Extends(c.slabs, c'.slabs) && c'.free == c.free
    ensures Live(sh, c', x) <==> Live(sh, c, x)
  {
    hide IsSlot;
    assert forall b :: LiveOf(sh, c', b, x) <==> LiveOf(sh, c, b, x);
  }

  // ----- one object written by its holder

  lemma ObjectInMemory(s: Site, m: seq<byte>, h: Heads, c: Cache, o: nat)
    requires Stocked(s, m, h, c) && Live(s.sh, c, o)
    ensures 0 < o && o + s.sh.objSize <= |m|
  {
    StockedParts(s, m, h, c);
    hide Stocked, Represents, IsSlot, Classified, Owns, Live;
    var a := LiveWhere(s.sh, c, o);
  }

  lemma OneObjectWritten(sh: Shape, c: Cache, m: seq<byte>, t: seq<byte>, o: nat, k: nat)
    requires ShapeOk(sh) && Live(sh, c, o) && k <= sh.objSize && SameOutside(m, t, o, o + k)
    ensures OnlyWritable(sh, c, m, t)
  {
    hide Live, IsSlot;
    var a := LiveWhere(sh, c, o);
    forall i: int | o <= i < o + k
      ensures Writable(sh, c, i)
    {
      assert WritableIn(sh, c, a, o, i);
    }
  }

  // Beyond its link words a free object may be written too.
  lemma FreeTailWritten(sh: Shape, c: Cache, m: seq<byte>, t: seq<byte>, a: nat, o: nat)
    requires a in c.slabs && a in c.free && IsSlot(sh, c.slabs[a].memory, o) &&
             SameOutside(m, t, o + 16, o + sh.objSize)
    ensures OnlyWritable(sh, c, m, t)
  {
    hide IsSlot;
    forall i: int | o + 16 <= i < o + sh.objSize
      ensures Writable(sh, c, i)
    {
      assert WritableIn(sh, c, a, o, i);
    }
  }

  // Writing one live object changes no other live object.
  lemma OtherObjectsKept(sh: Shape, c0: Cache, c: Cache, m: seq<byte>, t: seq<byte>, o: nat, k: nat)
    requires ShapeOk(sh) && Spread(sh, c.slabs, |m|) && Live(sh, c, o) && k <= sh.objSize && SameOutside(m, t, o, o + k)
    requires !Live(sh, c0, o) && forall x: nat :: Live(sh, c0, x) ==> Live(sh, c, x)
    ensures ObjectsKept(sh, c0, m, t)
  {
    hide Live, Spread;
    forall x: nat | Live(sh, c0, x)
      ensures SameBytes(m, t, x, x + sh.objSize)
    {
      LiveApart(sh, c, |m|, x, o);
      forall i | x <= i < x + sh.objSize
        ensures SameByte(m, t, i)
      {
      }
    }
  }

  lemma OneOtherKept(sh: Shape, c: Cache, m: seq<byte>, t: seq<byte>, o: nat, k: nat, x: nat)
    requires ShapeOk(sh) && Spread(sh, c.slabs, |m|) && Live(sh, c, o) && k <= sh.objSize && SameOutside(m, t, o, o + k)
    requires Live(sh, c, x) && x != o
    ensures SameBytes(m, t, x, x + sh.objSize)
  {
    hide Live, Spread;
    LiveApart(sh, c, |m|, x, o);
  }

  method WriteBytes(mem: array<byte>, a: nat, image: seq<byte>)
    requires a + |image| <= mem.Length
    modifies mem
    ensures mem[a..a + |image|] == image && SameOutside(old(mem[..]), mem[..], a, a + |image|)
  {
    for i := 0 to |image|
      invariant mem[a..a + i] == image[..i]
      invariant SameOutside(old(mem[..]), mem[..], a, a + |image|)
    {
      mem[a + i] := image[i];
      assert mem[a..a + i + 1] == mem[a..a + i] + [image[i]];
    }
  }

  // ----- counting

  ghost function SlotSet(sh: Shape, memory: nat, k: nat): (s: set<nat>)
    ensures |s| <= k
  {
    if k == 0 then {} else SlotSet(sh, memory, k - 1) + {Slot(sh, memory, k - 1)}
  }

  lemma {:induction false} InSlotSet(sh: Shape, memory: nat, k: nat, i: nat)
    requires i < k
    ensures Slot(sh, memory, i) in SlotSet(sh, memory, k)
  {
    if i < k - 1 {
      InSlotSet(sh, memory, k - 1, i);
    }
  }

  lemma SlotInSet(sh: Shape, memory: nat, x: nat)
    requires IsSlot(sh, memory, x)
    ensures x in SlotSet(sh, memory, sh.maxObjects)
  {
    var i: nat :| i < sh.maxObjects && x == Slot(sh, memory, i);
    InSlotSet(sh, memory, sh.maxObjects, i);
  }

  ghost function Elements(f: seq<nat>): set<nat> {
    set x | x in f
  }

  lemma {:induction false} NoDupSize(f: seq<nat>)
    requires NoDup(f)
    ensures |Elements(f)| == |f|
  {
    if f != [] {
      TailMember(f);
      NoDupSize(f[1..]);
      assert forall x: nat :: x in f <==> x == f[0] || x in f[1..];
      assert f[0] !in f[1..];
      assert Elements(f) == Elements(f[1..]) + {f[0]};
    }
  }

  // A slab with an object that is not free has fewer free objects than slots.
  lemma NotAllFree(sh: Shape, memory: nat, f: seq<nat>, o: nat)
    requires NoDup(f) && AllSlots(sh, memory, f) && IsSlot(sh, memory, o) && o !in f
    ensures |f| < sh.maxObjects
  {
    hide IsSlot, Slot;
    var all := SlotSet(sh, memory, sh.maxObjects);
    forall x: nat | x in f || x == o
      ensures x in all
    {
      SlotInSet(sh, memory, x);
    }
    var taken := Elements(f) + {o};
    NoDupSize(f);
    assert taken <= all;
    SubsetSize(taken, all);
  }

  lemma {:induction false} SubsetSize(a: set<nat>, b: set<nat>)
    requires a <= b
    ensures |a| <= |b|
  {
    assert b == a + (b - a);
  }

  lemma FreeNoDup(s: Site, m: seq<byte>, h: Heads, c: Cache, slab: nat)
    requires Stocked(s, m, h, c) && slab in c.slabs
    ensures slab in c.free && NoDup(c.free[slab]) && FreeSlots(s.sh, c.slabs, c.free)
  {
    LinkedInMemory(m, 0, c.slabs[slab].freeList, c.free[slab]);
  }

  // The slab of a live object counts it, so it is on the partial or the full list.
  lemma LiveCounted(s: Site, m: seq<byte>, h: Heads, c: Cache, o: nat) returns (a: nat)
    requires Stocked(s, m, h, c) && Counted(s.sh, c.slabs, c.free) && Live(s.sh, c, o)
    ensures a in c.slabs && a in c.free && IsSlot(s.sh, c.slabs[a].memory, o) && o !in c.free[a]
    ensures c.slabs[a].objCounter > 0 && (a in c.partial || a in c.full)
    ensures c.slabs[a].memory <= o < c.slabs[a].memory + s.sh.slabSize
  {
    StockedParts(s, m, h, c);
    hide Stocked, Represents, IsSlot, Owns, Live, Classified;
    a := LiveWhere(s.sh, c, o);
    FreeNoDup(s, m, h, c, a);
    NotAllFree(s.sh, c.slabs[a].memory, c.free[a], o);
    ClassifiedAt(s.sh, c, a);
  }
}
