// How the values of a cache change from one step of an operation to the next.
module SlabMoves {
  import opened BuddySteps
  import opened Sequences
  import opened BuddyMemory
  import opened Memory64
  import opened DList
  import opened SlabSpec
  import opened SlabMemory
  import opened SlabLinking
  import opened SlabBlocks
  import opened SlabFrames
  import opened SlabSteps
  import opened SlabLive

  // A descriptor block at a and a memory block at memory, live now and not before.
  ghost predicate NewBlocks(s: Site, more: set<nat>, a: nat, memory: nat) {
    && more == s.live + {BlockAt(s.p, a, 0), BlockAt(s.p, memory, s.order)} && Separate(more) && a != 0 && memory != 0
    && LiveAt(s.p, more, a, 0) && LiveAt(s.p, more, memory, s.order)
    && BlockAt(s.p, a, 0) !in s.live && BlockAt(s.p, memory, s.order) !in s.live &&
       BlockAt(s.p, a, 0) != BlockAt(s.p, memory, s.order)
  }

  lemma NewBlocksParts(s: Site, more: set<nat>, a: nat, memory: nat)
    requires NewBlocks(s, more, a, memory)
    ensures more == s.live + {BlockAt(s.p, a, 0), BlockAt(s.p, memory, s.order)}
    ensures BlockAt(s.p, a, 0) !in s.live && BlockAt(s.p, memory, s.order) !in s.live
  {
  }

  lemma SlabFilled(s: Site, m: seq<byte>, h: Heads, c: Cache, more: set<nat>, t: seq<byte>, a: nat, memory: nat)
    requires Stocked(s, m, h, c) && Kept(s.p.n, s.p.start, m, t, s.live) && NewBlocks(s, more, a, memory)
    requires a + 4096 <= |t| && memory + s.sh.slabSize <= |t|
    requires Linked(t, 0, memory, Slots(s.sh, memory))
    ensures a !in c.slabs &&
            Loose(s.(live := more), t, h, WithSlab(c, a, SlabInfo(memory, memory, 0), Slots(s.sh, memory)), a)
  {
    assert NewBlocks(s, more, a, memory);
    hide Stocked, Represents, Classified, Owns, Separate, LiveAt, BlockAt, Kept, Linked, AllSlots, Loose, WithSlab,
         Slots;
    StockedParts(s, m, h, c);
    BuddyKeepsCache(s.p, s.sh, m, t, s.live, s.home, s.order, h, c);
    SlotsAreSlots(s.sh, memory);
    FreshSlabAdded(s.p, s.live, more, s.home, s.order, s.sh, t, h, c, a, memory, Slots(s.sh, memory));
    OnNoList(s, m, h, c, a);
    WithSlabIs(c, a, SlabInfo(memory, memory, 0), Slots(s.sh, memory));
    MakeLoose(s.(live := more), t, h, WithSlab(c, a, SlabInfo(memory, memory, 0), Slots(s.sh, memory)), a);
  }

  lemma WithSlabIs(c: Cache, a: nat, info: SlabInfo, f: seq<nat>)
    ensures var c' := WithSlab(c, a, info, f);
            c'.empty == c.empty && c'.partial == c.partial && c'.full == c.full && a in c'.slabs
  {
  }

  lemma OnNoList(s: Site, m: seq<byte>, h: Heads, c: Cache, a: nat)
    requires Stocked(s, m, h, c) && a !in c.slabs
    ensures a !in c.empty && a !in c.partial && a !in c.full
  {
  }

  lemma MakeLoose(s: Site, m: seq<byte>, h: Heads, c: Cache, a: nat)
    requires Represents(s.sh, m, h, c) && Separate(s.live) && Owns(s.p, s.live, s.home, s.order, s.sh, c.slabs) &&
             a in c.slabs
    requires a !in c.empty && a !in c.partial && a !in c.full
    ensures Loose(s, m, h, c, a)
  {
  }

  lemma DemoteSame(sh: Shape, c: Cache, slab: nat)
    requires slab in c.slabs && c.slabs[slab].objCounter > 0
    ensures var v := Demote(sh, c, slab);
            && slab in v.slabs && v.free == c.free && v.slabs.Keys == c.slabs.Keys && Extends(c.slabs, v.slabs)
            && v.slabs == c.slabs[slab := c.slabs[slab].(objCounter := c.slabs[slab].objCounter - 1)]
            && v.slabs[slab].memory == c.slabs[slab].memory
  {
  }

  // One object fewer counted, one more free.
  lemma GivenCounted(sh: Shape, c: Cache, slab: nat, head: nat, o: nat)
    requires Counted(sh, c.slabs, c.free) && slab in c.slabs && slab in c.free && c.slabs[slab].objCounter > 0
    ensures var v := Demote(sh, c, slab);
            slab in v.slabs && slab in v.free &&
            var c' := WithFree(v, slab, head, [o] + v.free[slab]); Counted(sh, c'.slabs, c'.free)
  {
  }

  // The object given back is the only one that stops being live.
  lemma GivenBack(s: Site, t: seq<byte>, h: Heads, c: Cache, slab: nat, head: nat, o: nat, c0: Cache)
    requires Stocked(s, t, h, c) && slab in c.slabs && slab in c.free && c.slabs[slab].objCounter > 0
    requires IsSlot(s.sh, c.slabs[slab].memory, o) && c0 == c.(free := c.free[slab := [o] + c.free[slab]])
    ensures slab in Demote(s.sh, c, slab).slabs
    ensures var c' := WithFree(Demote(s.sh, c, slab), slab, head, [o] + c.free[slab]);
            && (forall x: nat :: Live(s.sh, c', x) <==> x != o && Live(s.sh, c, x))
            && (forall x: nat :: Live(s.sh, c', x) <==> Live(s.sh, c0, x))
  {
    hide *;
    DemoteSame(s.sh, c, slab);
    var v := Demote(s.sh, c, slab);
    WithFreeIs(v, slab, head, [o] + c.free[slab]);
    var c' := WithFree(v, slab, head, [o] + c.free[slab]);
    StockedParts(s, t, h, c);
    FreeNoDup(s, t, h, c, slab);
    ExtendsThen(c.slabs, v.slabs, c'.slabs);
    forall x: nat
      ensures Live(s.sh, c', x) <==> x != o && Live(s.sh, c, x)
      ensures Live(s.sh, c', x) <==> Live(s.sh, c0, x)
    {
      GivenLiveHere(s.sh, c, |t|, c', slab, o, x);
      SameLive(s.sh, c0, c', x);
    }
  }

  lemma GivenLiveHere(sh: Shape, c: Cache, size: nat, c': Cache, a: nat, o: nat, x: nat)
    requires ShapeOk(sh) && Spread(sh, c.slabs, size) && FreeSlots(sh, c.slabs, c.free) && a in c.slabs && a in c.free
    requires IsSlot(sh, c.slabs[a].memory, o)
    requires c'.slabs.Keys == c.slabs.Keys && Extends(c.slabs, c'.slabs) && c'.free == c.free[a := [o] + c.free[a]]
    ensures Live(sh, c', x) <==> x != o && Live(sh, c, x)
  {
    GivenLive(sh, c, size, c', a, o, x);
  }

  lemma ExtendsThen(a: map<nat, SlabInfo>, b: map<nat, SlabInfo>, c: map<nat, SlabInfo>)
    requires Extends(a, b) && Extends(b, c)
    ensures Extends(a, c)
  {
  }

  lemma SameObjectsKept(sh: Shape, c0: Cache, c: Cache, m: seq<byte>, t: seq<byte>)
    requires ObjectsKept(sh, c0, m, t) && forall x: nat :: Live(sh, c, x) <==> Live(sh, c0, x)
    ensures ObjectsKept(sh, c, m, t)
  {
    hide Live;
  }

  lemma OneSlabHere(s: Site, m: seq<byte>, h: Heads, c: Cache, a: nat, b: nat, x: nat)
    requires Stocked(s, m, h, c) && a in c.slabs && b in c.slabs
    requires c.slabs[a].memory <= x < c.slabs[a].memory + s.sh.slabSize &&
             c.slabs[b].memory <= x < c.slabs[b].memory + s.sh.slabSize
    ensures a == b
  {
    hide *;
    StockedParts(s, m, h, c);
    OneSlab(s.sh, c, |m|, a, b, x);
  }

  lemma SlotInMemory(s: Site, m: seq<byte>, h: Heads, c: Cache, a: nat, o: nat)
    requires Stocked(s, m, h, c) && a in c.slabs && IsSlot(s.sh, c.slabs[a].memory, o)
    ensures o + s.sh.objSize <= |m| && s.sh.objSize >= 16
  {
    SlotInside(s.sh, c.slabs[a].memory, o);
  }

  // Writing behind the link words of a free object touches no live one.
  lemma TailWritten(s: Site, m: seq<byte>, h: Heads, c: Cache, a: nat, o: nat, k: nat, t: seq<byte>)
    requires Stocked(s, m, h, c) && a in c.slabs && a in c.free && IsSlot(s.sh, c.slabs[a].memory, o) &&
             !Live(s.sh, c, o)
    requires 16 + k <= s.sh.objSize && SameOutside(m, t, o + 16, o + 16 + k)
    ensures OnlyWritable(s.sh, c, m, t) && ObjectsKept(s.sh, c, m, t)
  {
    StockedParts(s, m, h, c);
    hide Stocked, Represents, Classified, Spread, Owns, IsSlot, Live, OnlyWritable;
    FreeTailWritten(s.sh, c, m, t, a, o);
    SlotInside(s.sh, c.slabs[a].memory, o);
    forall x: nat | Live(s.sh, c, x)
      ensures SameBytes(m, t, x, x + s.sh.objSize)
    {
      var b := LiveWhere(s.sh, c, x);
      ApartFromSlot(s.sh, c, |m|, a, o, b, x);
    }
  }

  lemma ApartFromSlot(sh: Shape, c: Cache, size: nat, a: nat, o: nat, b: nat, x: nat)
    requires ShapeOk(sh) && Spread(sh, c.slabs, size) && a in c.slabs && b in c.slabs && x != o
    requires IsSlot(sh, c.slabs[a].memory, o) && IsSlot(sh, c.slabs[b].memory, x)
    ensures ObjectsApart(sh, o, x)
  {
    SlotInside(sh, c.slabs[a].memory, o);
    SlotInside(sh, c.slabs[b].memory, x);
    if a == b {
      SlotsApart(sh, c.slabs[a].memory, o, x);
    }
  }

  lemma GrownIs(c: Cache, a: nat, memory: nat, f: seq<nat>)
    requires a !in c.slabs
    ensures var c1 := WithSlab(c, a, SlabInfo(memory, memory, 0), f);
            && c1.empty == c.empty && c1.slabs == c.slabs[a := SlabInfo(memory, memory, 0)] &&
               Extends(c.slabs, c1.slabs)
            && Grown(c, a, memory, f) == c1.(empty := [a] + c1.empty) && Grown(c, a, memory, f).slabs == c1.slabs
  {
  }

  lemma LooseParts(s: Site, m: seq<byte>, h: Heads, c: Cache, a: nat)
    requires Loose(s, m, h, c, a)
    ensures ShapeOk(s.sh) && Separate(s.live) && Owns(s.p, s.live, s.home, s.order, s.sh, c.slabs)
  {
  }

  lemma DiscreetParts(s: Site, others: set<nat>, c: Cache, m: seq<byte>, t: seq<byte>)
    requires Discreet(s, others, c, m, t)
    ensures OwnedOnly(s.p.n, s.p.start, m, t, s.live) && Kept(s.p.n, s.p.start, m, t, others) &&
            ObjectsKept(s.sh, c, m, t)
  {
  }

  lemma OthersIs(s: Site, slabs: map<nat, SlabInfo>)
    ensures OthersOf(s, slabs) == s.live - Blocks(s.p, s.home, s.order, slabs)
  {
  }

  lemma GrownCounted(sh: Shape, c: Cache, a: nat, memory: nat)
    requires Counted(sh, c.slabs, c.free) && a !in c.slabs
    ensures var g := Grown(c, a, memory, Slots(sh, memory)); Counted(sh, g.slabs, g.free)
  {
  }

  // The slab choose_slab picks in the state c0, and the state c in which it has it: c0 itself, or c0
  // with a new slab when no slab had a free object.
  ghost predicate Picked(sh: Shape, c0: Cache, c: Cache, slab: nat) {
    if c0.partial == [] && c0.empty == [] then
      slab !in c0.slabs && slab in c.slabs &&
        c == Grown(c0, slab, c.slabs[slab].memory, Slots(sh, c.slabs[slab].memory))
    else
      c == c0 && Chosen(c0, slab)
  }

  lemma HeadsAre(s: Site, m: seq<byte>, h: Heads, c: Cache)
    requires Stocked(s, m, h, c)
    ensures h.partial == 0 <==> c.partial == []
    ensures h.empty == 0 <==> c.empty == []
    ensures h.empty != 0 ==> h.empty == c.empty[0]
    ensures forall a :: a in c.partial || a in c.empty || a in c.full ==> a != 0
  {
    LinkedInMemory(m, 0, h.full, c.full);
    LinkedInMemory(m, 0, h.partial, c.partial);
    LinkedInMemory(m, 0, h.empty, c.empty);
  }

  // The picked slab has a free object, and none of its free objects is live at the start.
  ghost predicate Ready(sh: Shape, c0: Cache, c: Cache, slab: nat) {
    && slab in c.slabs && slab in c.free && c.slabs[slab].objCounter < sh.maxObjects && c.free[slab] != []
    && Extends(c0.slabs, c.slabs) && FreeIn(c0.slabs, c0.free, slab, c.free[slab])
  }

  lemma ReadyParts(sh: Shape, c0: Cache, c: Cache, slab: nat)
    requires Ready(sh, c0, c, slab)
    ensures slab in c.slabs && slab in c.free && c.slabs[slab].objCounter < sh.maxObjects && c.free[slab] != []
    ensures Extends(c0.slabs, c.slabs) && FreeIn(c0.slabs, c0.free, slab, c.free[slab])
  {
  }

  lemma PromoteSame(sh: Shape, c0: Cache, c: Cache, slab: nat)
    requires slab in c.slabs && Extends(c0.slabs, c.slabs)
    ensures var v := Promote(sh, c, slab);
            && slab in v.slabs && v.free == c.free && v.slabs.Keys == c.slabs.Keys && Extends(c.slabs, v.slabs)
            && Extends(c0.slabs, v.slabs)
  {
  }

  lemma WithFreeIs(c: Cache, a: nat, head: nat, f: seq<nat>)
    requires a in c.slabs
    ensures var c' := WithFree(c, a, head, f);
            && a in c'.slabs && c'.slabs == c.slabs[a := c.slabs[a].(freeList := head)] && c'.slabs[a].freeList == head
            && c'.free == c.free[a := f] && c'.slabs.Keys == c.slabs.Keys && Extends(c.slabs, c'.slabs)
  {
  }

  // One object more counted, one fewer free.
  lemma TakenCounted(sh: Shape, c: Cache, slab: nat, head: nat)
    requires Counted(sh, c.slabs, c.free) && slab in c.slabs && slab in c.free && c.free[slab] != []
    ensures var v := Promote(sh, c, slab);
            slab in v.slabs && slab in v.free &&
            var c' := WithFree(v, slab, head, v.free[slab][1..]); Counted(sh, c'.slabs, c'.free)
  {
  }

  lemma PickedLive(sh: Shape, c0: Cache, c: Cache, slab: nat, x: nat)
    requires ShapeOk(sh) && Picked(sh, c0, c, slab)
    ensures Live(sh, c, x) <==> Live(sh, c0, x)
  {
    if c0.partial == [] && c0.empty == [] {
      GrownLive(sh, c0, slab, c.slabs[slab].memory, x);
    }
  }

  // The object taken from the picked slab was not live, and is the only one that becomes live.
  lemma ObjectTaken(s: Site, t: seq<byte>, h: Heads, c0: Cache, c: Cache, slab: nat, head: nat, x: nat)
    requires slab in c.slabs && slab in c.free && c.free[slab] != [] && Picked(s.sh, c0, c, slab) &&
             Extends(c0.slabs, c.slabs)
    requires Stocked(s, t, h, Promote(s.sh, c, slab))
    ensures var v := Promote(s.sh, c, slab);
            slab in v.slabs && slab in v.free && v.free[slab] == c.free[slab] &&
            var o, c' := c.free[slab][0], WithFree(v, slab, head, v.free[slab][1..]);
            !Live(s.sh, c0, o) && (Live(s.sh, c', x) <==> x == o || Live(s.sh, c0, x))
  {
    PromoteSame(s.sh, c0, c, slab);
    hide *;
    var v := Promote(s.sh, c, slab);
    var o, c' := c.free[slab][0], WithFree(v, slab, head, v.free[slab][1..]);
    StockedParts(s, t, h, v);
    FreeNoDup(s, t, h, v, slab);
    WithFreeIs(v, slab, head, v.free[slab][1..]);
    TakenLiveHere(s.sh, v, |t|, c', slab, x);
    SameLive(s.sh, c, v, x);
    SameLive(s.sh, c, v, o);
    PickedLive(s.sh, c0, c, slab, x);
    PickedLive(s.sh, c0, c, slab, o);
  }

  lemma TakenLiveHere(sh: Shape, c: Cache, size: nat, c': Cache, a: nat, x: nat)
    requires ShapeOk(sh) && Spread(sh, c.slabs, size) && FreeSlots(sh, c.slabs, c.free) && a in c.slabs && a in c.free
    requires c.free[a] != [] && NoDup(c.free[a])
    requires c'.slabs.Keys == c.slabs.Keys && Extends(c.slabs, c'.slabs) && c'.free == c.free[a := c.free[a][1..]]
    ensures !Live(sh, c, c.free[a][0])
    ensures Live(sh, c', x) <==> x == c.free[a][0] || Live(sh, c, x)
  {
    TakenLive(sh, c, size, c', a, x);
  }

  lemma PickedOld(sh: Shape, c: Cache, slab: nat)
    requires if c.partial != [] then Chosen(c, slab) else c.empty != [] ==> slab == c.empty[0]
    ensures c.partial != [] || c.empty != [] ==> Picked(sh, c, c, slab)
  {
  }

  lemma PickedNew(sh: Shape, c0: Cache, c: Cache, slab: nat)
    requires c0.partial == [] && c0.empty == [] && slab !in c0.slabs && slab in c.slabs
    requires c == Grown(c0, slab, c.slabs[slab].memory, Slots(sh, c.slabs[slab].memory))
    ensures Picked(sh, c0, c, slab)
  {
  }

  lemma SameAround(n: nat, start: nat, sh: Shape, c: Cache, m: seq<byte>, others: set<nat>)
    ensures Kept(n, start, m, m, others) && ObjectsKept(sh, c, m, m)
  {
  }

  lemma PromoteSlabs(sh: Shape, c: Cache, slab: nat)
    requires slab in c.slabs
    ensures Promote(sh, c, slab).slabs == c.slabs[slab := c.slabs[slab].(objCounter := c.slabs[slab].objCounter + 1)]
  {
  }

  // A picked slab has a free object.
  lemma PickedHasRoom(sh: Shape, c0: Cache, c: Cache, slab: nat)
    requires ShapeOk(sh) && Classified(sh, c) && Counted(sh, c.slabs, c.free) && Picked(sh, c0, c, slab)
    ensures Ready(sh, c0, c, slab)
  {
    if c0.partial == [] && c0.empty != [] {
      assert c.empty[0] in c.empty;
    }
  }

  // The scan for the fullest slab got past the first done slabs of l; slab, at found, is the last with the most
  // objects so far, or 0 when it has not begun.
  ghost predicate Scanned(slabs: map<nat, SlabInfo>, l: seq<nat>, done: nat, slab: nat, found: nat, most: nat) {
    && done <= |l| && (forall i :: 0 <= i < |l| ==> l[i] in slabs && l[i] != 0)
    && (if slab == 0 then done == 0 && l != [] && slabs[l[0]].objCounter == most
        else found < done && l[found] == slab && slabs[slab].objCounter == most)
    && (forall i :: 0 <= i < done ==> slabs[l[i]].objCounter <= most)
    && (forall i :: found < i < done ==> slabs[l[i]].objCounter < most)
  }

  lemma DropOne(l: seq<nat>, done: nat)
    requires done < |l|
    ensures l[done..][0] == l[done] && l[done..][1..] == l[done + 1..] && l[done] in l
  {
  }

  lemma NoneScanned(slabs: map<nat, SlabInfo>, l: seq<nat>, most: nat)
    requires l != [] && l[0] in slabs && most == slabs[l[0]].objCounter
    requires forall a :: a in l ==> a in slabs && a != 0
    ensures Scanned(slabs, l, 0, 0, 0, most)
  {
  }

  lemma OneScanned(slabs: map<nat, SlabInfo>, l: seq<nat>, done: nat, slab: nat, found: nat, most: nat)
    requires Scanned(slabs, l, done, slab, found, most) && done < |l|
    ensures l[done] in slabs
    ensures if slabs[l[done]].objCounter >= most then
              Scanned(slabs, l, done + 1, l[done], done, slabs[l[done]].objCounter)
            else Scanned(slabs, l, done + 1, slab, found, most)
  {
  }

  lemma AllScanned(c: Cache, slab: nat, found: nat, most: nat)
    requires Scanned(c.slabs, c.partial, |c.partial|, slab, found, most) && NoDup(c.partial) && c.partial != []
    ensures slab in c.partial && Chosen(c, slab)
  {
  }

  lemma ClassifiedLists(s: Site, m: seq<byte>, h: Heads, c: Cache)
    requires Stocked(s, m, h, c)
    ensures Linked(m, 0, h.partial, c.partial) && NoDup(c.partial) && forall a :: a in c.partial ==> a in c.slabs
    ensures Linked(m, 0, h.full, c.full) && forall a :: a in c.full ==> a in c.slabs
  {
  }

  // What an allocation did: the first free object o of the picked slab was taken, and its slab counts
  // one more.
  ghost predicate Served(sh: Shape, c0: Cache, c: Cache, slab: nat, o: nat, c': Cache) {
    && Picked(sh, c0, c, slab) && slab in c.slabs && slab in c.free && c.free[slab] != [] && slab in c'.slabs
    && o == c.free[slab][0] && c' == WithFree(Promote(sh, c, slab), slab, c'.slabs[slab].freeList, c.free[slab][1..])
  }

  ghost predicate GotObject(sh: Shape, c0: Cache, o: nat, c': Cache) {
    exists slab, c :: Served(sh, c0, c, slab, o, c')
  }

  // While a slab has a free object no slab comes or goes.
  lemma GotSamePlaces(sh: Shape, c0: Cache, o: nat, c': Cache)
    requires GotObject(sh, c0, o, c') && (c0.partial != [] || c0.empty != [])
    ensures c'.slabs.Keys == c0.slabs.Keys && forall a :: a in c0.slabs ==> c'.slabs[a].memory == c0.slabs[a].memory
  {
  }

  lemma MakeServed(sh: Shape, c0: Cache, c: Cache, slab: nat, head: nat, c': Cache)
    requires Picked(sh, c0, c, slab) && slab in c.slabs && slab in c.free && c.free[slab] != []
    requires slab in Promote(sh, c, slab).slabs && c' == WithFree(Promote(sh, c, slab), slab, head, c.free[slab][1..])
    ensures Served(sh, c0, c, slab, c.free[slab][0], c')
  {
  }

  // What a free did: o went to the front of the free list of the slab it lies in, which counts one fewer.
  ghost predicate Returned(sh: Shape, c: Cache, slab: nat, o: nat, c': Cache) {
    && slab in c.slabs && slab in c.free && c.slabs[slab].objCounter > 0
    && IsSlot(sh, c.slabs[slab].memory, o) && o !in c.free[slab]
    && c' == WithFree(Demote(sh, c, slab), slab, o, [o] + c.free[slab])
  }

  ghost predicate GaveObject(sh: Shape, c: Cache, o: nat, c': Cache) {
    exists slab :: Returned(sh, c, slab, o, c')
  }

  lemma MakeReturned(sh: Shape, c: Cache, slab: nat, o: nat, c': Cache)
    requires slab in c.slabs && slab in c.free && c.slabs[slab].objCounter > 0
    requires IsSlot(sh, c.slabs[slab].memory, o) && o !in c.free[slab]
    requires slab in Demote(sh, c, slab).slabs && c' == WithFree(Demote(sh, c, slab), slab, o, [o] + c.free[slab])
    ensures Returned(sh, c, slab, o, c')
  {
  }

  lemma LiveNotNull(s: Site, m: seq<byte>, h: Heads, c: Cache, o: nat)
    requires Stocked(s, m, h, c) && Live(s.sh, c, o)
    ensures o > 0
  {
    hide *;
    ObjectInMemory(s, m, h, c, o);
  }
}
