// The loop of slabInit that threads a fresh slab's memory into a free list of all its objects.
module SlabLinking {
  import opened Powers
  import opened Memory64
  import opened DList
  import opened SlabSpec
  import opened SlabMemory

  function Slots(sh: Shape, memory: nat): (s: seq<nat>)
    ensures |s| == sh.maxObjects
  {
    seq(sh.maxObjects, i requires 0 <= i < sh.maxObjects => Slot(sh, memory, i))
  }

  function SlotOr0(sh: Shape, memory: nat, i: int): nat {
    if 0 <= i < sh.maxObjects then Slot(sh, memory, i) else 0
  }

  // Object i is linked to its neighbours.
  ghost predicate Built(sh: Shape, m: seq<byte>, memory: nat, i: nat)
    requires Slot(sh, memory, i) + 16 <= |m|
  {
    Next(m, Slot(sh, memory, i)) == Slot(sh, memory, i + 1) &&
      Prev(m, Slot(sh, memory, i)) == SlotOr0(sh, memory, i - 1)
  }

  lemma SlotBounds(sh: Shape, memory: nat, i: nat)
    requires ShapeOk(sh) && i < sh.maxObjects
    ensures IsSlot(sh, memory, Slot(sh, memory, i))
    ensures memory <= Slot(sh, memory, i) &&
            Slot(sh, memory, i) + 16 <= Slot(sh, memory, i) + sh.objSize <= memory + sh.slabSize
    ensures Slot(sh, memory, i + 1) == Slot(sh, memory, i) + sh.objSize
  {
    SlotInside(sh, memory, Slot(sh, memory, i));
    assert (i + 1) * sh.objSize == i * sh.objSize + sh.objSize;
  }

  lemma SlotValue(sh: Shape, memory: nat, i: nat)
    ensures Slot(sh, memory, i) == memory + i * sh.objSize
  {
  }

  lemma EarlierSlot(sh: Shape, memory: nat, i: nat, j: nat)
    requires ShapeOk(sh) && i < j
    ensures Slot(sh, memory, i) + sh.objSize <= Slot(sh, memory, j)
  {
    ScaleLess(i, j, sh.objSize);
  }

  lemma {:induction false} BuiltLinked(sh: Shape, m: seq<byte>, memory: nat, i: nat)
    requires ShapeOk(sh) && i <= sh.maxObjects && 0 < memory && memory + sh.slabSize <= |m|
    requires forall j: nat :: j < sh.maxObjects ==> Slot(sh, memory, j) + 16 <= |m|
    requires forall j: nat :: i <= j < sh.maxObjects - 1 ==> Built(sh, m, memory, j)
    requires var l := sh.maxObjects - 1;
             Next(m, Slot(sh, memory, l)) == 0 && Prev(m, Slot(sh, memory, l)) == SlotOr0(sh, memory, l - 1)
    ensures Linked(m, SlotOr0(sh, memory, i - 1), SlotOr0(sh, memory, i), Slots(sh, memory)[i..])
    decreases sh.maxObjects - i
  {
    hide *;
    var s := Slots(sh, memory)[i..];
    NextSlot(sh, memory, i);
    if i == sh.maxObjects {
      LinkedEmpty(m, SlotOr0(sh, memory, i - 1));
    } else {
      BuiltLinked(sh, m, memory, i + 1);
      assert s[1..] == Slots(sh, memory)[i + 1..];
      LaterSlots(sh, memory, i);
      if i < sh.maxObjects - 1 {
        BuiltIs(sh, m, memory, i);
        NextSlot(sh, memory, i + 1);
      }
      LinkedCons(m, SlotOr0(sh, memory, i - 1), s);
    }
  }

  lemma NextSlot(sh: Shape, memory: nat, i: nat)
    requires ShapeOk(sh) && i <= sh.maxObjects && 0 < memory
    ensures SlotOr0(sh, memory, i) == if i < sh.maxObjects then Slot(sh, memory, i) else 0
    ensures i < sh.maxObjects ==> Slots(sh, memory)[i] == Slot(sh, memory, i) && Slot(sh, memory, i) > 0
  {
  }

  lemma LaterSlots(sh: Shape, memory: nat, i: nat)
    requires ShapeOk(sh) && i < sh.maxObjects
    ensures Slot(sh, memory, i) !in Slots(sh, memory)[i + 1..]
  {
    hide Slot, ShapeOk;
    forall j | i < j < sh.maxObjects
      ensures Slots(sh, memory)[j] != Slot(sh, memory, i)
    {
      EarlierSlot(sh, memory, i, j);
      ObjectSizePositive(sh);
    }
  }

  lemma ObjectSizePositive(sh: Shape)
    requires ShapeOk(sh)
    ensures sh.objSize >= 16
  {
  }

  lemma SlotsAreSlots(sh: Shape, memory: nat)
    requires ShapeOk(sh)
    ensures AllSlots(sh, memory, Slots(sh, memory))
  {
    forall o | o in Slots(sh, memory)
      ensures IsSlot(sh, memory, o)
    {
      var i :| 0 <= i < sh.maxObjects && Slots(sh, memory)[i] == o;
      SlotBounds(sh, memory, i);
    }
  }

  lemma JustBuilt(sh: Shape, m: seq<byte>, memory: nat, i: nat)
    requires Slot(sh, memory, i) + 16 <= |m| && Prev(m, Slot(sh, memory, i)) == SlotOr0(sh, memory, i - 1)
    requires Next(m, Slot(sh, memory, i)) == Slot(sh, memory, i + 1)
    ensures Built(sh, m, memory, i)
  {
  }

  lemma BuiltIs(sh: Shape, m: seq<byte>, memory: nat, i: nat)
    requires Slot(sh, memory, i) + 16 <= |m| && Built(sh, m, memory, i)
    ensures Next(m, Slot(sh, memory, i)) == Slot(sh, memory, i + 1) &&
            Prev(m, Slot(sh, memory, i)) == SlotOr0(sh, memory, i - 1)
  {
  }

  lemma AtLeastEight(sh: Shape)
    requires ShapeOk(sh)
    ensures sh.maxObjects >= 8
  {
  }

  lemma EndSlots(sh: Shape, memory: nat)
    requires ShapeOk(sh)
    ensures SlotOr0(sh, memory, -1) == 0 && SlotOr0(sh, memory, 0) == memory
  {
  }

  lemma BuiltKept(sh: Shape, m: seq<byte>, t: seq<byte>, memory: nat, i: nat)
    requires ShapeOk(sh) && i < sh.maxObjects && memory + sh.slabSize <= |m|
    requires SameOutside(m, t, Slot(sh, memory, i), Slot(sh, memory, i) + 16)
    requires forall j: nat :: j < sh.maxObjects ==> Slot(sh, memory, j) + 16 <= |m|
    requires forall j: nat :: j < i ==> Built(sh, m, memory, j)
    ensures forall j: nat :: j < i ==> Built(sh, t, memory, j)
  {
    forall j: nat | j < i
      ensures Built(sh, t, memory, j)
    {
      assert Built(sh, m, memory, j);
      EarlierSlot(sh, memory, j, i);
      NodeOutside(m, t, Slot(sh, memory, i), Slot(sh, memory, j));
    }
  }

  // m and t differ only in [lo, hi) if the last write was to the node a in it.
  lemma SameOutsideThen(m: seq<byte>, u: seq<byte>, t: seq<byte>, lo: nat, hi: nat, a: nat)
    requires u == m || SameOutside(m, u, lo, hi)
    requires u == t || (SameOutside(u, t, a, a + 16) && lo <= a && a + 16 <= hi)
    ensures SameOutside(m, t, lo, hi)
  {
  }

  lemma AllSlotsInside(sh: Shape, memory: nat, size: nat)
    requires ShapeOk(sh) && memory + sh.slabSize <= size
    ensures forall j: nat :: j < sh.maxObjects ==> Slot(sh, memory, j) + 16 <= size
  {
    forall j: nat | j < sh.maxObjects
      ensures Slot(sh, memory, j) + 16 <= size
    {
      SlotBounds(sh, memory, j);
    }
  }

  // One pass of the loop: object i is linked both ways.
  method LinkOne(mem: array<byte>, pointer: nat, next: nat, previous: nat, ghost sh: Shape, ghost memory: nat,
                 ghost i: nat, ghost m0: seq<byte>)
    requires ShapeOk(sh) && i < sh.maxObjects && memory + sh.slabSize <= mem.Length < TWO_TO_64
    requires pointer == Slot(sh, memory, i) && next == Slot(sh, memory, i + 1) &&
             previous == SlotOr0(sh, memory, i - 1) < TWO_TO_64
    requires forall j: nat :: j < sh.maxObjects ==> Slot(sh, memory, j) + 16 <= mem.Length
    requires forall j: nat :: j < i ==> Built(sh, mem[..], memory, j)
    requires mem[..] == m0 || SameOutside(m0, mem[..], memory, memory + sh.slabSize)
    modifies mem
    ensures forall j: nat :: j < i + 1 ==> Built(sh, mem[..], memory, j)
    ensures SameOutside(m0, mem[..], memory, memory + sh.slabSize)
    ensures pointer + 16 <= mem.Length && Next(mem[..], pointer) == next
  {
    hide Linked, SameOutside, Slot, SlotOr0, ShapeOk, Built, Word, Le, Slots;
    ghost var m := mem[..];
    SlotBounds(sh, memory, i);
    SetNode(mem, pointer, next, previous);
    BuiltKept(sh, m, mem[..], memory, i);
    SameOutsideThen(m0, m, mem[..], memory, memory + sh.slabSize, pointer);
    JustBuilt(sh, mem[..], memory, i);
  }

  // Links every object to the one after it and the one before it; the last one's next pointer still
  // points past the end.
  method LinkForward(mem: array<byte>, memory: nat, objSize: nat, maxObjects: nat, ghost sh: Shape)
    returns (previous: nat)
    requires ShapeOk(sh) && objSize == sh.objSize && maxObjects == sh.maxObjects
    requires 0 < memory && memory + sh.slabSize <= mem.Length < TWO_TO_64
    requires forall j: nat :: j < sh.maxObjects ==> Slot(sh, memory, j) + 16 <= mem.Length
    modifies mem
    ensures previous == Slot(sh, memory, maxObjects - 1)
    ensures forall j: nat :: j < sh.maxObjects ==> Built(sh, mem[..], memory, j)
    ensures SameOutside(old(mem[..]), mem[..], memory, memory + sh.slabSize)
  {
    assert maxObjects >= 8;
    hide Linked, SameOutside, Slot, ShapeOk, Built, Word, Le, Slots;
    SlotValue(sh, memory, 0);
    ghost var m0 := mem[..];
    var pointer := memory;
    previous := 0;
    for i := 1 to maxObjects + 1
      invariant pointer == Slot(sh, memory, i - 1) && previous == SlotOr0(sh, memory, i - 2)
      invariant forall j: nat :: j < i - 1 ==> Built(sh, mem[..], memory, j)
      invariant mem[..] == m0 || SameOutside(m0, mem[..], memory, memory + sh.slabSize)
      invariant i > 1 ==> SameOutside(m0, mem[..], memory, memory + sh.slabSize)
    {
      SlotBounds(sh, memory, i - 1);
      SlotValue(sh, memory, i);
      LinkOne(mem, pointer, memory + i * objSize, previous, sh, memory, i - 1, m0);
      previous := pointer;
      pointer := Load64(mem, pointer);
    }
  }

  method LinkSlots(mem: array<byte>, memory: nat, objSize: nat, maxObjects: nat, ghost sh: Shape)
    requires ShapeOk(sh) && objSize == sh.objSize && maxObjects == sh.maxObjects
    requires 0 < memory && memory + sh.slabSize <= mem.Length < TWO_TO_64
    modifies mem
    ensures Linked(mem[..], 0, memory, Slots(sh, memory))
    ensures SameOutside(old(mem[..]), mem[..], memory, memory + sh.slabSize)
  {
    hide Linked, SameOutside, Slot, Built;
    ghost var m0 := mem[..];
    AllSlotsInside(sh, memory, mem.Length);
    var previous := LinkForward(mem, memory, objSize, maxObjects, sh);
    SlotBounds(sh, memory, maxObjects - 1);
    ghost var m := mem[..];
    CloseList(mem, previous, memory, sh);
    SameOutsideThen(m0, m, mem[..], memory, memory + sh.slabSize, previous);
  }

  // previous->next = 0 on the last object.
  method CloseList(mem: array<byte>, previous: nat, ghost memory: nat, ghost sh: Shape)
    requires ShapeOk(sh) && 0 < memory && memory + sh.slabSize <= mem.Length &&
             previous == Slot(sh, memory, sh.maxObjects - 1)
    requires forall j: nat :: j < sh.maxObjects ==>
             Slot(sh, memory, j) + 16 <= mem.Length && Built(sh, mem[..], memory, j)
    modifies mem
    ensures Linked(mem[..], 0, memory, Slots(sh, memory))
    ensures SameOutside(old(mem[..]), mem[..], previous, previous + 16)
  {
    hide Linked, SameOutside, Slot, SlotOr0, Built, ShapeOk, Slots;
    ghost var m := mem[..];
    AtLeastEight(sh);
    BuiltIs(sh, m, memory, sh.maxObjects - 1);
    SetNext(mem, previous, 0);
    BuiltKept(sh, m, mem[..], memory, sh.maxObjects - 1);
    BuiltLinked(sh, mem[..], memory, 0);
    assert Slots(sh, memory)[0..] == Slots(sh, memory);
    EndSlots(sh, memory);
  }
}
