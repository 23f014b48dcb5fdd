// A cache's lists as they lie in memory, and what may be written without disturbing them.
module SlabMemory {
  import opened Sequences
  import opened Memory64
  import opened DList
  import opened SlabSpec

  // The heads of the three slab lists.
  datatype Heads = Heads(empty: nat, partial: nat, full: nat)

  ghost predicate SlabLists(m: seq<byte>, h: Heads, c: Cache) {
    Linked(m, 0, h.empty, c.empty) && Linked(m, 0, h.partial, c.partial) && Linked(m, 0, h.full, c.full)
  }

  // The free objects of every slab are threaded from its free_list field.
  ghost predicate ObjectLists(m: seq<byte>, slabs: map<nat, SlabInfo>, free: map<nat, seq<nat>>) {
    slabs.Keys == free.Keys && forall a :: a in slabs ==> Linked(m, 0, slabs[a].freeList, free[a])
  }

  ghost predicate SameByte(m: seq<byte>, t: seq<byte>, i: int) {
    0 <= i < |m| && i < |t| ==> m[i] == t[i]
  }

  ghost predicate SameBytes(m: seq<byte>, t: seq<byte>, lo: nat, hi: nat) {
    |m| == |t| && forall i :: lo <= i < hi ==> SameByte(m, t, i)
  }

  lemma SameBytesNode(m: seq<byte>, t: seq<byte>, lo: nat, hi: nat, a: nat)
    requires SameBytes(m, t, lo, hi) && lo <= a && a + 16 <= hi && a + 16 <= |m|
    ensures SameNode(m, t, a)
  {
    forall i | a <= i < a + 16
      ensures m[i] == t[i]
    {
      assert SameByte(m, t, i);
    }
    LeKept(m, t, a, 8);
    LeKept(m, t, a + 8, 8);
  }

  // A list whose nodes all lie in pages that keep their bytes.
  lemma PagesKept(m: seq<byte>, t: seq<byte>, head: nat, s: seq<nat>)
    requires Linked(m, 0, head, s) && forall a :: a in s ==> SameBytes(m, t, a, a + 4096)
    ensures Linked(t, 0, head, s)
  {
    LinkedInMemory(m, 0, head, s);
    forall a | a in s
      ensures SameNode(m, t, a)
    {
      SameBytesNode(m, t, a, a + 4096, a);
    }
    LinkedKept(m, t, 0, head, s);
  }

  // A free list whose slab memory keeps its bytes.
  lemma MemoryKept(sh: Shape, m: seq<byte>, t: seq<byte>, memory: nat, head: nat, s: seq<nat>)
    requires ShapeOk(sh) && Linked(m, 0, head, s) && forall o :: o in s ==> IsSlot(sh, memory, o)
    requires SameBytes(m, t, memory, memory + sh.slabSize)
    ensures Linked(t, 0, head, s)
  {
    LinkedInMemory(m, 0, head, s);
    forall o | o in s
      ensures SameNode(m, t, o)
    {
      SlotInside(sh, memory, o);
      SameBytesNode(m, t, memory, memory + sh.slabSize, o);
    }
    LinkedKept(m, t, 0, head, s);
  }

  // Writes to nodes of s leave any range of bytes alone that they do not touch.
  lemma NodesMissRange(m: seq<byte>, t: seq<byte>, s: seq<nat>, lo: nat, hi: nat)
    requires OnlyNodes(m, t, s) && forall a :: a in s ==> a + 16 <= lo || hi <= a
    ensures SameBytes(m, t, lo, hi)
  {
    forall i | lo <= i < hi
      ensures SameByte(m, t, i)
    {
      assert !InNode(s, i);
    }
  }

  // Relinking slab descriptors disturbs no free list.
  lemma DescriptorWrites(sh: Shape, m: seq<byte>, t: seq<byte>, s: seq<nat>, slabs: map<nat, SlabInfo>,
                         free: map<nat, seq<nat>>)
    requires ShapeOk(sh) && Spread(sh, slabs, |m|) && FreeSlots(sh, slabs, free) && ObjectLists(m, slabs, free)
    requires OnlyNodes(m, t, s) && forall a :: a in s ==> a in slabs
    ensures ObjectLists(t, slabs, free)
  {
    forall a | a in slabs
      ensures Linked(t, 0, slabs[a].freeList, free[a])
    {
      NodesMissRange(m, t, s, slabs[a].memory, slabs[a].memory + sh.slabSize);
      MemoryKept(sh, m, t, slabs[a].memory, slabs[a].freeList, free[a]);
    }
  }

  // Relinking some descriptors disturbs no slab list they are not on.
  lemma OtherSlabList(sh: Shape, m: seq<byte>, t: seq<byte>, s: seq<nat>, slabs: map<nat, SlabInfo>, head: nat,
                      u: seq<nat>)
    requires Spread(sh, slabs, |m|) && Linked(m, 0, head, u) && OnlyNodes(m, t, s)
    requires forall a :: a in s ==> a in slabs
    requires forall a :: a in u ==> a in slabs && a !in s
    ensures Linked(t, 0, head, u)
  {
    hide Linked, OnlyNodes, SameNode, Spread;
    LinkedInMemory(m, 0, head, u);
    forall a | a in u
      ensures SameNode(m, t, a)
    {
      DescriptorsApart(sh, slabs, s, a, |m|);
      NodeUntouched(m, t, s, a);
    }
    LinkedKept(m, t, 0, head, u);
  }

  lemma DescriptorsApart(sh: Shape, slabs: map<nat, SlabInfo>, s: seq<nat>, a: nat, size: nat)
    requires Spread(sh, slabs, size) && a in slabs && a !in s && forall b :: b in s ==> b in slabs
    ensures forall b :: b in s ==> NodesApart(b, a)
  {
  }

  // Relinking objects of slab b disturbs no slab list and no other slab's free list.
  lemma ObjectWrites(sh: Shape, m: seq<byte>, t: seq<byte>, s: seq<nat>, slabs: map<nat, SlabInfo>, b: nat)
    requires ShapeOk(sh) && Spread(sh, slabs, |m|) && b in slabs && OnlyNodes(m, t, s)
    requires forall o :: o in s ==> IsSlot(sh, slabs[b].memory, o)
    ensures forall a :: a in slabs ==> SameBytes(m, t, a, a + 4096)
    ensures forall a :: a in slabs && a != b ==> SameBytes(m, t, slabs[a].memory, slabs[a].memory + sh.slabSize)
  {
    forall o | o in s
      ensures slabs[b].memory <= o && o + 16 <= slabs[b].memory + sh.slabSize
    {
      SlotInside(sh, slabs[b].memory, o);
    }
    forall a | a in slabs
      ensures SameBytes(m, t, a, a + 4096)
      ensures a != b ==> SameBytes(m, t, slabs[a].memory, slabs[a].memory + sh.slabSize)
    {
      NodesMissRange(m, t, s, a, a + 4096);
      if a != b {
        NodesMissRange(m, t, s, slabs[a].memory, slabs[a].memory + sh.slabSize);
      }
    }
  }

  lemma DescriptorsScattered(sh: Shape, slabs: map<nat, SlabInfo>, s: seq<nat>, size: nat)
    requires Spread(sh, slabs, size) && forall a :: a in s ==> a in slabs
    ensures Scattered(s, size)
  {
  }

  lemma ObjectsScattered(sh: Shape, slabs: map<nat, SlabInfo>, b: nat, s: seq<nat>, size: nat)
    requires ShapeOk(sh) && Spread(sh, slabs, size) && b in slabs
    requires forall o :: o in s ==> IsSlot(sh, slabs[b].memory, o)
    ensures Scattered(s, size)
  {
    forall o | o in s
      ensures 0 < o && o + 16 <= size
    {
      SlotInside(sh, slabs[b].memory, o);
    }
    forall a, o | a in s && o in s && a != o
      ensures NodesApart(a, o)
    {
      SlotsApart(sh, slabs[b].memory, a, o);
    }
  }

  ghost predicate InLinks(slabs: map<nat, SlabInfo>, i: int) {
    exists a :: a in slabs && a <= i < a + 16
  }

  // Only link words of slab descriptors differ.
  ghost predicate OnlyDescriptors(m: seq<byte>, t: seq<byte>, slabs: map<nat, SlabInfo>) {
    |m| == |t| && forall i {:trigger InLinks(slabs, i)} :: 0 <= i < |m| && !InLinks(slabs, i) ==> m[i] == t[i]
  }

  lemma NodesInLinks(m: seq<byte>, u: seq<byte>, t: seq<byte>, s: seq<nat>, slabs: map<nat, SlabInfo>)
    requires OnlyDescriptors(m, u, slabs) && OnlyNodes(u, t, s) && forall a :: a in s ==> a in slabs
    ensures OnlyDescriptors(m, t, slabs)
  {
    forall i | 0 <= i < |m| && !InLinks(slabs, i)
      ensures m[i] == t[i]
    {
      assert !InNode(s, i);
    }
  }

  ghost predicate AllIn(s: seq<nat>, slabs: map<nat, SlabInfo>) {
    forall a :: a in s ==> a in slabs
  }

  ghost predicate NoneIn(s: seq<nat>, u: seq<nat>) {
    forall a :: a in s ==> a !in u
  }

  // Relinking the nodes of s: two lists without nodes of s, and all the free lists, stay as they are.
  lemma Bystanders(m: seq<byte>, t: seq<byte>, s: seq<nat>, sh: Shape, slabs: map<nat, SlabInfo>,
                   free: map<nat, seq<nat>>, h1: nat, u1: seq<nat>, h2: nat, u2: seq<nat>)
    requires ShapeOk(sh) && Spread(sh, slabs, |m|) && FreeSlots(sh, slabs, free) && ObjectLists(m, slabs, free)
    requires OnlyNodes(m, t, s) && AllIn(s, slabs)
    requires Linked(m, 0, h1, u1) && AllIn(u1, slabs) && NoneIn(u1, s)
    requires Linked(m, 0, h2, u2) && AllIn(u2, slabs) && NoneIn(u2, s)
    ensures Linked(t, 0, h1, u1) && Linked(t, 0, h2, u2) && ObjectLists(t, slabs, free)
    ensures OnlyDescriptors(m, t, slabs)
  {
    OtherSlabList(sh, m, t, s, slabs, h1, u1);
    OtherSlabList(sh, m, t, s, slabs, h2, u2);
    DescriptorWrites(sh, m, t, s, slabs, free);
    NodesInLinks(m, m, t, s, slabs);
  }

  // Three lists made of slabs that share none.
  ghost predicate Tidy(slabs: map<nat, SlabInfo>, s: seq<nat>, t: seq<nat>, u: seq<nat>) {
    && (forall a :: a in s ==> a in slabs && a !in t && a !in u)
    && (forall a :: a in t ==> a in slabs && a !in s && a !in u)
    && (forall a :: a in u ==> a in slabs && a !in s && a !in t)
  }

  lemma TidyMove(slabs: map<nat, SlabInfo>, s: seq<nat>, t: seq<nat>, u: seq<nat>, a: nat)
    requires Tidy(slabs, s, t, u) && a in s && forall x :: x in Without(s, a) <==> x in s && x != a
    ensures Tidy(slabs, Without(s, a), [a] + t, u)
  {
    assert forall x: nat :: x in [a] + t <==> x == a || x in t;
  }

  // list_remove from one slab list and list_push on another; the third list and all the free lists
  // stay as they are.
  method MoveSlab(mem: array<byte>, source: nat, target: nat, slab: nat, ghost sh: Shape,
                  ghost slabs: map<nat, SlabInfo>, ghost free: map<nat, seq<nat>>, ghost s: seq<nat>,
                  ghost t: seq<nat>, ghost third: nat, ghost u: seq<nat>)
    returns (source': nat, target': nat)
    requires ShapeOk(sh) && Spread(sh, slabs, mem.Length) && FreeSlots(sh, slabs, free) &&
             ObjectLists(mem[..], slabs, free)
    requires Linked(mem[..], 0, source, s) && Linked(mem[..], 0, target, t) && Linked(mem[..], 0, third, u)
    requires Tidy(slabs, s, t, u) && slab in s
    modifies mem
    ensures Tidy(slabs, Without(s, slab), [slab] + t, u)
    ensures Linked(mem[..], 0, source', Without(s, slab)) && Linked(mem[..], 0, target', [slab] + t)
    ensures Linked(mem[..], 0, third, u) && ObjectLists(mem[..], slabs, free)
    ensures OnlyDescriptors(old(mem[..]), mem[..], slabs)
  {
    ghost var m, w := mem[..], Without(s, slab);
    WithoutOf(m, source, s, slab);
    TidyMove(slabs, s, t, u, slab);
    DescriptorsScattered(sh, slabs, s, mem.Length);
    source' := ListRemove(mem, source, slab, s);
    Bystanders(m, mem[..], s, sh, slabs, free, target, t, third, u);
    target' := PushSlab(mem, target, slab, sh, slabs, free, t, source', w, third, u);
  }

  lemma WithoutOf(m: seq<byte>, head: nat, s: seq<nat>, a: nat)
    requires Linked(m, 0, head, s)
    ensures forall x :: x in Without(s, a) <==> x in s && x != a
  {
    LinkedInMemory(m, 0, head, s);
    WithoutMember(s, a);
  }

  lemma PushTouches(sh: Shape, slabs: map<nat, SlabInfo>, t: seq<nat>, slab: nat, w: seq<nat>, u: seq<nat>, size: nat)
    requires Spread(sh, slabs, size) && AllIn(t, slabs) && slab in slabs && slab !in t
    requires w == (if t == [] then [slab] else [slab, t[0]]) && NoneIn(u, t) && slab !in u
    ensures RoomFor(slab, t, size) && AllIn(w, slabs) && NoneIn(u, w)
  {
    assert t != [] ==> t[0] in t;
    assert forall a: nat :: a in w ==> a == slab || a in t;
  }

  method PushSlab(mem: array<byte>, target: nat, slab: nat, ghost sh: Shape, ghost slabs: map<nat, SlabInfo>,
                  ghost free: map<nat, seq<nat>>, ghost t: seq<nat>, ghost h1: nat, ghost u1: seq<nat>,
                  ghost h2: nat, ghost u2: seq<nat>)
    returns (target': nat)
    requires ShapeOk(sh) && Spread(sh, slabs, mem.Length) && FreeSlots(sh, slabs, free) &&
             ObjectLists(mem[..], slabs, free)
    requires Linked(mem[..], 0, target, t) && AllIn(t, slabs) && slab in slabs && slab !in t
    requires Linked(mem[..], 0, h1, u1) && AllIn(u1, slabs) && NoneIn(u1, t) && slab !in u1
    requires Linked(mem[..], 0, h2, u2) && AllIn(u2, slabs) && NoneIn(u2, t) && slab !in u2
    modifies mem
    ensures Linked(mem[..], 0, target', [slab] + t)
    ensures Linked(mem[..], 0, h1, u1) && Linked(mem[..], 0, h2, u2) && ObjectLists(mem[..], slabs, free)
    ensures OnlyDescriptors(old(mem[..]), mem[..], slabs)
  {
    ghost var m := mem[..];
    ghost var w := if t == [] then [slab] else [slab, t[0]];
    DescriptorsScattered(sh, slabs, t, mem.Length);
    PushTouches(sh, slabs, t, slab, w, u1, mem.Length);
    PushTouches(sh, slabs, t, slab, w, u2, mem.Length);
    target' := ListPush(mem, target, slab, t);
    Bystanders(m, mem[..], w, sh, slabs, free, h1, u1, h2, u2);
  }

  // Memory m and the list heads h hold the cache c.
  ghost predicate Represents(sh: Shape, m: seq<byte>, h: Heads, c: Cache) {
    match c
    case Cache(empty, partial, full, slabs, free) =>
      && ShapeOk(sh) && Spread(sh, slabs, |m|) && FreeSlots(sh, slabs, free)
      && Tidy(slabs, empty, partial, full)
      && SlabLists(m, h, c) && ObjectLists(m, slabs, free)
  }

  lemma RepresentsParts(sh: Shape, m: seq<byte>, h: Heads, c: Cache)
    requires Represents(sh, m, h, c)
    ensures ShapeOk(sh) && Spread(sh, c.slabs, |m|) && FreeSlots(sh, c.slabs, c.free)
    ensures Tidy(c.slabs, c.empty, c.partial, c.full) && ObjectLists(m, c.slabs, c.free)
    ensures Linked(m, 0, h.empty, c.empty) && Linked(m, 0, h.partial, c.partial) && Linked(m, 0, h.full, c.full)
  {
  }

  lemma MakeRepresents(sh: Shape, m: seq<byte>, h: Heads, c: Cache)
    requires ShapeOk(sh) && Spread(sh, c.slabs, |m|) && FreeSlots(sh, c.slabs, c.free)
    requires Tidy(c.slabs, c.empty, c.partial, c.full) && ObjectLists(m, c.slabs, c.free)
    requires Linked(m, 0, h.empty, c.empty) && Linked(m, 0, h.partial, c.partial) && Linked(m, 0, h.full, c.full)
    ensures Represents(sh, m, h, c)
  {
  }

  // Changing a counter moves nothing.
  lemma CounterChange(sh: Shape, m: seq<byte>, h: Heads, c: Cache, a: nat, n: nat)
    requires Represents(sh, m, h, c) && a in c.slabs
    ensures Represents(sh, m, h, WithCounter(c, a, n))
  {
    hide *;
    RepresentsParts(sh, m, h, c);
    var c' := WithCounter(c, a, n);
    CounterOnly(c, a, n);
    SpreadSame(sh, c.slabs, c'.slabs, |m|);
    SlotsSame(sh, c.slabs, c'.slabs, c.free);
    TidySame(c.slabs, c'.slabs, c.empty, c.partial, c.full);
    ObjectListsSame(m, c.slabs, c'.slabs, c.free);
    MakeRepresents(sh, m, h, c');
  }

  lemma CounterOnly(c: Cache, a: nat, n: nat)
    requires a in c.slabs
    ensures var c' := WithCounter(c, a, n);
            && c'.slabs.Keys == c.slabs.Keys && c' == c.(slabs := c'.slabs)
            && forall b :: b in c.slabs ==>
               c'.slabs[b].memory == c.slabs[b].memory && c'.slabs[b].freeList == c.slabs[b].freeList
  {
  }

  lemma SlotsSame(sh: Shape, slabs: map<nat, SlabInfo>, after: map<nat, SlabInfo>, free: map<nat, seq<nat>>)
    requires FreeSlots(sh, slabs, free) && after.Keys == slabs.Keys
    requires forall b :: b in slabs ==> after[b].memory == slabs[b].memory
    ensures FreeSlots(sh, after, free)
  {
    hide IsSlot;
  }

  lemma TidySame(slabs: map<nat, SlabInfo>, after: map<nat, SlabInfo>, s: seq<nat>, t: seq<nat>, u: seq<nat>)
    requires Tidy(slabs, s, t, u) && after.Keys == slabs.Keys
    ensures Tidy(after, s, t, u)
  {
    hide NoneIn;
    assert forall a :: a in after <==> a in slabs;
  }

  lemma ObjectListsSame(m: seq<byte>, slabs: map<nat, SlabInfo>, after: map<nat, SlabInfo>, free: map<nat, seq<nat>>)
    requires ObjectLists(m, slabs, free) && after.Keys == slabs.Keys
    requires forall b :: b in slabs ==> after[b].freeList == slabs[b].freeList
    ensures ObjectLists(m, after, free)
  {
    hide Linked;
  }

  // Spread is about descriptor and memory addresses only.
  lemma SpreadSame(sh: Shape, slabs: map<nat, SlabInfo>, after: map<nat, SlabInfo>, size: nat)
    requires Spread(sh, slabs, size) && after.Keys <= slabs.Keys
    requires forall b :: b in after ==> after[b].memory == slabs[b].memory
    ensures Spread(sh, after, size)
  {
  }

  method EmptyToPartial(mem: array<byte>, h: Heads, slab: nat, ghost sh: Shape, ghost c: Cache) returns (h': Heads)
    requires Represents(sh, mem[..], h, c) && slab in c.empty
    modifies mem
    ensures Represents(sh, mem[..], h', c.(empty := Without(c.empty, slab), partial := [slab] + c.partial))
    ensures OnlyDescriptors(old(mem[..]), mem[..], c.slabs)
  {
    var e, p := MoveSlab(mem, h.empty, h.partial, slab, sh, c.slabs, c.free, c.empty, c.partial, h.full, c.full);
    h' := Heads(e, p, h.full);
  }

  method PartialToFull(mem: array<byte>, h: Heads, slab: nat, ghost sh: Shape, ghost c: Cache) returns (h': Heads)
    requires Represents(sh, mem[..], h, c) && slab in c.partial
    modifies mem
    ensures Represents(sh, mem[..], h', c.(partial := Without(c.partial, slab), full := [slab] + c.full))
    ensures OnlyDescriptors(old(mem[..]), mem[..], c.slabs)
  {
    var p, f := MoveSlab(mem, h.partial, h.full, slab, sh, c.slabs, c.free, c.partial, c.full, h.empty, c.empty);
    h' := Heads(h.empty, p, f);
  }

  method FullToPartial(mem: array<byte>, h: Heads, slab: nat, ghost sh: Shape, ghost c: Cache) returns (h': Heads)
    requires Represents(sh, mem[..], h, c) && slab in c.full
    modifies mem
    ensures Represents(sh, mem[..], h', c.(full := Without(c.full, slab), partial := [slab] + c.partial))
    ensures OnlyDescriptors(old(mem[..]), mem[..], c.slabs)
  {
    var f, p := MoveSlab(mem, h.full, h.partial, slab, sh, c.slabs, c.free, c.full, c.partial, h.empty, c.empty);
    h' := Heads(h.empty, p, f);
  }

  method PartialToEmpty(mem: array<byte>, h: Heads, slab: nat, ghost sh: Shape, ghost c: Cache) returns (h': Heads)
    requires Represents(sh, mem[..], h, c) && slab in c.partial
    modifies mem
    ensures Represents(sh, mem[..], h', c.(partial := Without(c.partial, slab), empty := [slab] + c.empty))
    ensures OnlyDescriptors(old(mem[..]), mem[..], c.slabs)
  {
    var p, e := MoveSlab(mem, h.partial, h.empty, slab, sh, c.slabs, c.free, c.partial, c.empty, h.full, c.full);
    h' := Heads(e, p, h.full);
  }

  method PromoteInLists(mem: array<byte>, h: Heads, slab: nat, n: nat, maxObjects: nat, ghost sh: Shape,
                        ghost c: Cache)
    returns (h': Heads)
    requires Represents(sh, mem[..], h, c) && maxObjects == sh.maxObjects
    requires if n == 0 then slab in c.empty else slab in c.partial
    modifies mem
    ensures Represents(sh, mem[..], h', PromoteLists(sh, c, slab, n))
    ensures OnlyDescriptors(old(mem[..]), mem[..], c.slabs)
  {
    h' := h;
    if n == 0 {
      h' := EmptyToPartial(mem, h', slab, sh, c);
    }
    if n == maxObjects - 1 {
      h' := PartialToFull(mem, h', slab, sh, c);
    }
  }

  ghost predicate AllSlots(sh: Shape, memory: nat, s: seq<nat>) {
    forall o :: o in s ==> IsSlot(sh, memory, o)
  }

  lemma SlabListsKept(m: seq<byte>, t: seq<byte>, h: Heads, c: Cache)
    requires SlabLists(m, h, c) && Tidy(c.slabs, c.empty, c.partial, c.full)
    requires forall a :: a in c.slabs ==> SameBytes(m, t, a, a + 4096)
    ensures SlabLists(t, h, c)
  {
    hide Linked, SameBytes;
    PagesKept(m, t, h.empty, c.empty);
    PagesKept(m, t, h.partial, c.partial);
    PagesKept(m, t, h.full, c.full);
  }

  lemma OtherObjectLists(sh: Shape, m: seq<byte>, t: seq<byte>, slabs: map<nat, SlabInfo>, free: map<nat, seq<nat>>,
                         b: nat)
    requires ShapeOk(sh) && ObjectLists(m, slabs, free) && FreeSlots(sh, slabs, free)
    requires forall a :: a in slabs && a != b ==> SameBytes(m, t, slabs[a].memory, slabs[a].memory + sh.slabSize)
    ensures forall a :: a in slabs && a != b ==> Linked(t, 0, slabs[a].freeList, free[a])
  {
    hide Linked, SameBytes;
    forall a | a in slabs && a != b
      ensures Linked(t, 0, slabs[a].freeList, free[a])
    {
      MemoryKept(sh, m, t, slabs[a].memory, slabs[a].freeList, free[a]);
    }
  }

  // Relinking objects of slab b gives it the free list f and changes nothing else.
  lemma ObjectsRelinked(sh: Shape, m: seq<byte>, t: seq<byte>, h: Heads, c: Cache, b: nat, s: seq<nat>, head: nat,
                        f: seq<nat>)
    requires Represents(sh, m, h, c) && b in c.slabs && OnlyNodes(m, t, s)
    requires AllSlots(sh, c.slabs[b].memory, s) && AllSlots(sh, c.slabs[b].memory, f) && Linked(t, 0, head, f)
    ensures Represents(sh, t, h, WithFree(c, b, head, f))
  {
    hide Linked, SameBytes, OnlyNodes, IsSlot, Spread, Tidy, SlabLists, ObjectLists, FreeSlots;
    ObjectWrites(sh, m, t, s, c.slabs, b);
    SlabListsKept(m, t, h, c);
    OtherObjectLists(sh, m, t, c.slabs, c.free, b);
    assert |t| == |m| by { OnlyNodesLength(m, t, s); }
    SpreadSame(sh, c.slabs, WithFree(c, b, head, f).slabs, |m|);
    FreeChanged(sh, t, h, c, b, head, f);
  }

  lemma OnlyNodesLength(m: seq<byte>, t: seq<byte>, s: seq<nat>)
    requires OnlyNodes(m, t, s)
    ensures |m| == |t|
  {
  }

  lemma FreeChanged(sh: Shape, t: seq<byte>, h: Heads, c: Cache, b: nat, head: nat, f: seq<nat>)
    requires ShapeOk(sh) && b in c.slabs && Spread(sh, WithFree(c, b, head, f).slabs, |t|) &&
             FreeSlots(sh, c.slabs, c.free)
    requires Tidy(c.slabs, c.empty, c.partial, c.full) && SlabLists(t, h, c)
    requires forall a :: a in c.slabs && a != b ==> Linked(t, 0, c.slabs[a].freeList, c.free[a])
    requires AllSlots(sh, c.slabs[b].memory, f) && Linked(t, 0, head, f)
    ensures Represents(sh, t, h, WithFree(c, b, head, f))
  {
    hide *;
    var c' := WithFree(c, b, head, f);
    FreeOnly(c, b, head, f);
    SlotsChanged(sh, c.slabs, c'.slabs, c.free, c'.free, b);
    TidySame(c.slabs, c'.slabs, c.empty, c.partial, c.full);
    ObjectListsChanged(t, c.slabs, c'.slabs, c.free, c'.free, b);
    SlabListsParts(t, h, c);
    MakeRepresents(sh, t, h, c');
  }

  lemma FreeOnly(c: Cache, b: nat, head: nat, f: seq<nat>)
    requires b in c.slabs
    ensures var c' := WithFree(c, b, head, f);
            && c'.slabs == c.slabs[b := c.slabs[b].(freeList := head)] && c'.free == c.free[b := f]
            && c'.empty == c.empty && c'.partial == c.partial && c'.full == c.full
            && c'.slabs.Keys == c.slabs.Keys
  {
  }

  lemma SlotsChanged(sh: Shape, slabs: map<nat, SlabInfo>, after: map<nat, SlabInfo>, free: map<nat, seq<nat>>,
                     free': map<nat, seq<nat>>, b: nat)
    requires FreeSlots(sh, slabs, free) && b in slabs && after.Keys == slabs.Keys && b in free' &&
             free' == free[b := free'[b]]
    requires forall a :: a in slabs ==> after[a].memory == slabs[a].memory
    requires AllSlots(sh, slabs[b].memory, free'[b])
    ensures FreeSlots(sh, after, free') && slabs.Keys == free.Keys
  {
    hide IsSlot;
  }

  lemma ObjectListsChanged(m: seq<byte>, slabs: map<nat, SlabInfo>, after: map<nat, SlabInfo>,
                           free: map<nat, seq<nat>>, free': map<nat, seq<nat>>, b: nat)
    requires slabs.Keys == free.Keys && b in slabs && b in after && b in free'
    requires after == slabs[b := after[b]] && free' == free[b := free'[b]]
    requires forall a :: a in slabs && a != b ==> Linked(m, 0, slabs[a].freeList, free[a])
    requires Linked(m, 0, after[b].freeList, free'[b])
    ensures ObjectLists(m, after, free')
  {
    hide Linked;
  }

  lemma SlabListsParts(m: seq<byte>, h: Heads, c: Cache)
    requires SlabLists(m, h, c)
    ensures Linked(m, 0, h.empty, c.empty) && Linked(m, 0, h.partial, c.partial) && Linked(m, 0, h.full, c.full)
  {
  }

  // list_pop on the free list of slab b.
  method PopObject(mem: array<byte>, freeList: nat, ghost sh: Shape, ghost h: Heads, ghost c: Cache, ghost b: nat)
    returns (o: nat, head: nat)
    requires Represents(sh, mem[..], h, c) && b in c.slabs && freeList == c.slabs[b].freeList && c.free[b] != []
    modifies mem
    ensures o == c.free[b][0] && Represents(sh, mem[..], h, WithFree(c, b, head, c.free[b][1..]))
    ensures OnlyNodes(old(mem[..]), mem[..], c.free[b])
  {
    ghost var m, f := mem[..], c.free[b];
    ObjectsScattered(sh, c.slabs, b, f, mem.Length);
    o, head := ListPop(mem, freeList, f);
    assert forall x: nat :: x in f[1..] ==> x in f;
    ObjectsRelinked(sh, m, mem[..], h, c, b, f, head, f[1..]);
  }

  // list_push of object o on the free list of slab b.
  method PushObject(mem: array<byte>, freeList: nat, o: nat, ghost sh: Shape, ghost h: Heads, ghost c: Cache,
                    ghost b: nat)
    returns (head: nat)
    requires Represents(sh, mem[..], h, c) && b in c.slabs && freeList == c.slabs[b].freeList
    requires IsSlot(sh, c.slabs[b].memory, o) && o !in c.free[b]
    modifies mem
    ensures head == o && Represents(sh, mem[..], h, WithFree(c, b, head, [o] + c.free[b]))
    ensures OnlyNodes(old(mem[..]), mem[..], [o] + c.free[b])
  {
    hide Linked, OnlyNodes, IsSlot, Scattered, RoomFor;
    ghost var m, f := mem[..], c.free[b];
    ObjectsScattered(sh, c.slabs, b, f, mem.Length);
    PushRoom(sh, c.slabs[b].memory, o, f, mem.Length);
    head := ListPush(mem, freeList, o, f);
    ghost var w := if f == [] then [o] else [o, f[0]];
    OnlyNodesMore(m, mem[..], w, [o] + f);
    ObjectsRelinked(sh, m, mem[..], h, c, b, [o] + f, head, [o] + f);
  }

  lemma PushRoom(sh: Shape, memory: nat, o: nat, f: seq<nat>, size: nat)
    requires ShapeOk(sh) && 0 < memory && memory + sh.slabSize <= size && IsSlot(sh, memory, o) &&
             AllSlots(sh, memory, f) && o !in f
    ensures RoomFor(o, f, size) && AllSlots(sh, memory, [o] + f)
    ensures forall x: nat :: x in (if f == [] then [o] else [o, f[0]]) ==> x in [o] + f
  {
    SlotInside(sh, memory, o);
    forall a | a in f
      ensures NodesApart(a, o)
    {
      SlotsApart(sh, memory, a, o);
    }
  }

  lemma OnlyNodesMore(m: seq<byte>, t: seq<byte>, s: seq<nat>, u: seq<nat>)
    requires OnlyNodes(m, t, s) && forall a :: a in s ==> a in u
    ensures OnlyNodes(m, t, u)
  {
    forall i | 0 <= i < |m| && !InNode(u, i)
      ensures m[i] == t[i]
    {
      assert !InNode(s, i);
    }
  }

  // list_push of a slab that is on no list yet on the empty list.
  method PushEmpty(mem: array<byte>, h: Heads, slab: nat, ghost sh: Shape, ghost c: Cache) returns (h': Heads)
    requires Represents(sh, mem[..], h, c) && slab in c.slabs
    requires slab !in c.empty && slab !in c.partial && slab !in c.full
    modifies mem
    ensures Represents(sh, mem[..], h', c.(empty := [slab] + c.empty))
    ensures OnlyDescriptors(old(mem[..]), mem[..], c.slabs)
  {
    hide *;
    ghost var c' := c.(empty := [slab] + c.empty);
    RepresentsParts(sh, mem[..], h, c);
    TidyPush(c.slabs, c.empty, c.partial, c.full, slab);
    var e := PushSlab(mem, h.empty, slab, sh, c.slabs, c.free, c.empty, h.partial, c.partial, h.full, c.full);
    h' := Heads(e, h.partial, h.full);
    MakeRepresents(sh, mem[..], h', c');
  }

  lemma TidyPush(slabs: map<nat, SlabInfo>, s: seq<nat>, t: seq<nat>, u: seq<nat>, a: nat)
    requires Tidy(slabs, s, t, u) && a in slabs && a !in s && a !in t && a !in u
    ensures AllIn(s, slabs) && AllIn(t, slabs) && AllIn(u, slabs) && NoneIn(t, s) && NoneIn(u, s)
    ensures Tidy(slabs, [a] + s, t, u)
  {
    assert forall x: nat :: x in [a] + s <==> x == a || x in s;
  }
}
