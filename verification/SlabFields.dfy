// Reading and writing the fields of slab descriptors.
module SlabFields {
  import opened Powers
  import opened BuddySteps
  import opened BuddyMemory
  import opened Buddy
  import opened Memory64
  import opened DList
  import opened SlabSpec
  import opened SlabRecords
  import opened SlabMemory
  import opened SlabBlocks
  import opened SlabFrames
  import opened SlabSteps
  import opened SlabSupply

  // ----- one field written

  // A list whose nodes all lie off the bytes written.
  lemma FieldMissesList(m: seq<byte>, t: seq<byte>, lo: nat, hi: nat, head: nat, l: seq<nat>)
    requires Linked(m, 0, head, l) && SameOutside(m, t, lo, hi) && forall b :: b in l ==> b + 16 <= lo || hi <= b
    ensures Linked(t, 0, head, l)
  {
    hide Linked;
    LinkedInMemory(m, 0, head, l);
    forall b | b in l
      ensures SameNode(m, t, b)
    {
      WordsKept(m, t, lo, hi);
    }
    LinkedKept(m, t, 0, head, l);
  }

  // A field of slab a is off the link words of all slabs and off all objects.
  ghost predicate FieldOf(a: nat, lo: nat, hi: nat) {
    a + 16 <= lo <= hi <= a + 4096
  }

  lemma FieldMisses(sh: Shape, m: seq<byte>, t: seq<byte>, slabs: map<nat, SlabInfo>, a: nat, lo: nat, hi: nat)
    requires Spread(sh, slabs, |m|) && a in slabs && FieldOf(a, lo, hi) && SameOutside(m, t, lo, hi)
    ensures forall b :: b in slabs ==> b + 16 <= lo || hi <= b
    ensures forall b :: b in slabs ==> SameBytes(m, t, slabs[b].memory, slabs[b].memory + sh.slabSize)
    ensures forall b :: b in slabs && b != a ==> SameBytes(m, t, b + 16, b + 36)
  {
    forall b | b in slabs
      ensures b + 16 <= lo || hi <= b
      ensures SameBytes(m, t, slabs[b].memory, slabs[b].memory + sh.slabSize)
      ensures b != a ==> SameBytes(m, t, b + 16, b + 36)
    {
      SpreadPair(sh, slabs, a, b, |m|);
    }
  }

  lemma FieldKeepsLists(sh: Shape, m: seq<byte>, h: Heads, c: Cache, t: seq<byte>, a: nat, lo: nat, hi: nat)
    requires Represents(sh, m, h, c) && a in c.slabs && FieldOf(a, lo, hi) && SameOutside(m, t, lo, hi)
    ensures Represents(sh, t, h, c)
  {
    RepresentsParts(sh, m, h, c);
    FieldMisses(sh, m, t, c.slabs, a, lo, hi);
    hide Linked, SameBytes, Spread, FieldOf, SameOutside, IsSlot, Represents;
    FieldMissesList(m, t, lo, hi, h.empty, c.empty);
    FieldMissesList(m, t, lo, hi, h.partial, c.partial);
    FieldMissesList(m, t, lo, hi, h.full, c.full);
    forall b | b in c.slabs
      ensures Linked(t, 0, c.slabs[b].freeList, c.free[b])
    {
      MemoryKept(sh, m, t, c.slabs[b].memory, c.slabs[b].freeList, c.free[b]);
    }
    OutsideLength(m, t, lo, hi);
    MakeRepresents(sh, t, h, c);
  }

  lemma OutsideLength(m: seq<byte>, t: seq<byte>, lo: nat, hi: nat)
    requires SameOutside(m, t, lo, hi)
    ensures |m| == |t|
  {
  }

  lemma FieldMissesObjects(sh: Shape, slabs: map<nat, SlabInfo>, c0: Cache, m: seq<byte>, t: seq<byte>)
    requires ShapeOk(sh) && |m| == |t| && Extends(c0.slabs, slabs)
    requires forall b :: b in slabs ==> SameBytes(m, t, slabs[b].memory, slabs[b].memory + sh.slabSize)
    ensures ObjectsKept(sh, c0, m, t)
  {
    hide Live, IsSlot, SameBytes;
    forall o: nat | Live(sh, c0, o)
      ensures SameBytes(m, t, o, o + sh.objSize)
    {
      var b := LiveWhere(sh, c0, o);
      SubrangeKept(m, t, slabs[b].memory, slabs[b].memory + sh.slabSize, o, o + sh.objSize);
    }
  }

  // Writing a field of slab a leaves the lists, everybody else's blocks and all objects alone.
  lemma FieldFrames(s: Site, m: seq<byte>, h: Heads, c: Cache, c0: Cache, t: seq<byte>, a: nat, lo: nat, hi: nat)
    requires Stocked(s, m, h, c) && a in c.slabs && FieldOf(a, lo, hi) && SameOutside(m, t, lo, hi)
    requires Extends(c0.slabs, c.slabs)
    ensures Stocked(s, t, h, c) && Discreet(s, OthersOf(s, c.slabs), c0, m, t)
  {
    StockedParts(s, m, h, c);
    OutsideOthers(s, c.slabs);
    hide *;
    FieldKeepsLists(s.sh, m, h, c, t, a, lo, hi);
    MakeStocked(s, t, h, c);
    FieldMisses(s.sh, m, t, c.slabs, a, lo, hi);
    OutsideLength(m, t, lo, hi);
    FieldMissesObjects(s.sh, c.slabs, c0, m, t);
    PageWritten(s, c.slabs, a, m, t, lo, hi);
    MakeDiscreet(s, OthersOf(s, c.slabs), c0, m, t);
  }

  lemma PageWritten(s: Site, slabs: map<nat, SlabInfo>, a: nat, m: seq<byte>, t: seq<byte>, lo: nat, hi: nat)
    requires Owns(s.p, s.live, s.home, s.order, s.sh, slabs) && Separate(s.live) && a in slabs && FieldOf(a, lo, hi)
    requires SameOutside(m, t, lo, hi) && Outside(s.p, s.live, s.home, s.order, slabs, OthersOf(s, slabs))
    ensures OwnedOnly(s.p.n, s.p.start, m, t, s.live) && Kept(s.p.n, s.p.start, m, t, OthersOf(s, slabs))
  {
    WiderOutside(m, t, a, lo, hi);
    hide *;
    OwnsMemory(s.p, s.live, s.home, s.order, s.sh, slabs, a, OthersOf(s, slabs));
    SizeOne();
    BlockWriteOwned(s.p, m, t, s.live, a, 0);
    BlockWriteKept(s.p, m, t, s.live, OthersOf(s, slabs), a, 0);
  }

  lemma WiderOutside(m: seq<byte>, t: seq<byte>, a: nat, lo: nat, hi: nat)
    requires SameOutside(m, t, lo, hi) && FieldOf(a, lo, hi)
    ensures SameOutside(m, t, a, a + 4096 * Pow2(0))
  {
    SizeOne();
  }

  // Addresses and counters fit their fields.
  lemma FieldsFit(s: Site, m: seq<byte>, h: Heads, c: Cache, a: nat)
    requires Stocked(s, m, h, c) && a in c.slabs
    ensures a + 4096 <= |m| <= TWO_TO_64 && c.slabs[a].freeList < TWO_TO_64 && c.slabs[a].memory < TWO_TO_64
    ensures c.slabs[a].objCounter <= 256
  {
    LinkedInMemory(m, 0, c.slabs[a].freeList, c.free[a]);
    hide IsSlot;
    LinkedStep(m, 0, c.slabs[a].freeList, c.free[a]);
  }

  // The counter of slab a becomes n, whatever lists the slab is on; was are the records before.
  method StoreCounter(mem: array<byte>, a: nat, n: nat, ghost s: Site, ghost h: Heads, ghost c: Cache, ghost c0: Cache,
                      ghost was: map<nat, SlabInfo>)
    requires Stocked(s, mem[..], h, c) && a in c.slabs && n <= 256 && Extends(c0.slabs, c.slabs)
    requires Recorded(mem[..], was) && was.Keys == c.slabs.Keys && a in was
    modifies mem
    ensures Stocked(s, mem[..], h, c) && Recorded(mem[..], was[a := was[a].(objCounter := n)])
    ensures Discreet(s, OthersOf(s, c.slabs), c0, old(mem[..]), mem[..])
  {
    hide *;
    ghost var m := mem[..];
    FieldsFit(s, m, h, c, a);
    Store32(mem, a + 32, n);
    MakeFieldOf(a, a + 32, a + 36);
    FieldFrames(s, m, h, c, c0, mem[..], a, a + 32, a + 36);
    StockedParts(s, m, h, c);
    FieldMisses(s.sh, m, mem[..], c.slabs, a, a + 32, a + 36);
    RecordChanged(m, mem[..], was, a, was[a := was[a].(objCounter := n)], a + 32, a + 36);
  }

  // The free list of slab a becomes what c says.
  method StoreFreeList(mem: array<byte>, a: nat, head: nat, ghost s: Site, ghost h: Heads, ghost c: Cache,
                       ghost c0: Cache, ghost was: map<nat, SlabInfo>)
    requires Stocked(s, mem[..], h, c) && a in c.slabs && head == c.slabs[a].freeList && Extends(c0.slabs, c.slabs)
    requires Recorded(mem[..], was) && a in was && c.slabs == was[a := was[a].(freeList := head)]
    modifies mem
    ensures Stocked(s, mem[..], h, c) && Recorded(mem[..], c.slabs)
    ensures Discreet(s, OthersOf(s, c.slabs), c0, old(mem[..]), mem[..])
  {
    hide *;
    ghost var m := mem[..];
    FieldsFit(s, m, h, c, a);
    Store64(mem, a + 16, head);
    MakeFieldOf(a, a + 16, a + 24);
    FieldFrames(s, m, h, c, c0, mem[..], a, a + 16, a + 24);
    StockedParts(s, m, h, c);
    FieldMisses(s.sh, m, mem[..], c.slabs, a, a + 16, a + 24);
    RecordChanged(m, mem[..], was, a, c.slabs, a + 16, a + 24);
  }

  lemma MakeFieldOf(a: nat, lo: nat, hi: nat)
    requires a + 16 <= lo <= hi <= a + 4096
    ensures FieldOf(a, lo, hi)
  {
  }

  // One field of slab a was written, the free list or the counter.
  lemma RecordChanged(m: seq<byte>, t: seq<byte>, was: map<nat, SlabInfo>, a: nat, slabs: map<nat, SlabInfo>, lo: nat,
                      hi: nat)
    requires Recorded(m, was) && a in was && slabs.Keys == was.Keys && SameOutside(m, t, lo, hi) && a + 36 <= |m|
    requires forall b :: b in slabs && b != a ==> slabs[b] == was[b] && SameBytes(m, t, b + 16, b + 36)
    requires (lo == a + 16 && hi == a + 24 && slabs[a] == was[a].(freeList := Word(t, lo)))
             || (lo == a + 32 && hi == a + 36 && slabs[a] == was[a].(objCounter := Half(t, lo)))
    ensures Recorded(t, slabs)
  {
    hide SameBytes, Le;
    forall b | b in slabs
      ensures RecordAt(t, b, slabs[b])
    {
      assert RecordAt(m, b, was[b]);
      if b != a {
        RecordKept(m, t, b, slabs[b]);
      } else if lo == a + 16 {
        LeKept(m, t, a + 24, 8);
        LeKept(m, t, a + 32, 4);
      } else {
        LeKept(m, t, a + 16, 8);
        LeKept(m, t, a + 24, 8);
      }
    }
  }

  // ----- a new descriptor

  // The fields of a new slab, in a live block that is not among the others.
  method WriteRecord(buddy: BuddyAllocator, a: nat, memory: nat, ghost others: set<nat>)
    requires buddy.Valid() && LiveAt(Place(buddy.n, buddy.start), buddy.live, a, 0) && others <= buddy.live
    requires BlockAt(Place(buddy.n, buddy.start), a, 0) !in others && a + 4096 <= buddy.mem.Length && memory < TWO_TO_64
    modifies buddy.mem
    ensures buddy.Valid() && Kept(buddy.n, buddy.start, old(buddy.mem[..]), buddy.mem[..], others)
    ensures RecordAt(buddy.mem[..], a, SlabInfo(memory, memory, 0))
  {
    ghost var m, p := buddy.mem[..], Place(buddy.n, buddy.start);
    StillValidWith(buddy);
    LiveSeparate(buddy);
    hide *;
    FiveFields(buddy.mem, a, memory);
    SizeOne();
    BlockWriteOwned(p, m, buddy.mem[..], buddy.live, a, 0);
    buddy.ValidAfterOwnedWrites(m);
    BlockWriteKept(p, m, buddy.mem[..], buddy.live, others, a, 0);
  }

  method FiveFields(mem: array<byte>, a: nat, memory: nat)
    requires a + 4096 <= mem.Length && memory < TWO_TO_64
    modifies mem
    ensures RecordAt(mem[..], a, SlabInfo(memory, memory, 0)) && SameOutside(old(mem[..]), mem[..], a, a + 4096)
  {
    hide Le;
    Store64(mem, a + 24, memory);
    ghost var m1 := mem[..];
    Store64(mem, a + 16, memory);
    ghost var m2 := mem[..];
    LeKept(m1, m2, a + 24, 8);
    Store64(mem, a + 8, 0);
    Store64(mem, a, 0);
    Store32(mem, a + 32, 0);
    LeKept(m2, mem[..], a + 16, 8);
    LeKept(m2, mem[..], a + 24, 8);
  }

  // The descriptor keeps its fields when its page keeps its bytes.
  lemma PageKeepsRecord(p: Place, m: seq<byte>, t: seq<byte>, others: set<nat>, a: nat, info: SlabInfo)
    requires RecordAt(m, a, info) && Kept(p.n, p.start, m, t, others) && LiveAt(p, others, a, 0)
    ensures RecordAt(t, a, info)
  {
    hide *;
    LiveKept(p, m, t, others, a, 0);
    SizeOne();
    SubrangeKept(m, t, a, a + 4096, a + 16, a + 36);
    RecordKept(m, t, a, info);
  }

  // ----- reading a field

  method LoadFreeList(mem: array<byte>, a: nat, ghost slabs: map<nat, SlabInfo>) returns (v: nat)
    requires Recorded(mem[..], slabs) && a in slabs
    ensures v == slabs[a].freeList
  {
    hide Le;
    assert RecordAt(mem[..], a, slabs[a]);
    v := Load64(mem, a + 16);
  }

  method LoadMemory(mem: array<byte>, a: nat, ghost slabs: map<nat, SlabInfo>) returns (v: nat)
    requires Recorded(mem[..], slabs) && a in slabs
    ensures v == slabs[a].memory
  {
    hide Le;
    assert RecordAt(mem[..], a, slabs[a]);
    v := Load64(mem, a + 24);
  }

  method LoadCounter(mem: array<byte>, a: nat, ghost slabs: map<nat, SlabInfo>) returns (v: nat)
    requires Recorded(mem[..], slabs) && a in slabs
    ensures v == slabs[a].objCounter
  {
    hide Le;
    assert RecordAt(mem[..], a, slabs[a]);
    v := Load32(mem, a + 32);
  }

  // Users of objects write no field.
  lemma UsersKeepRecords(sh: Shape, c: Cache, m: seq<byte>, t: seq<byte>)
    requires ShapeOk(sh) && Spread(sh, c.slabs, |m|) && OnlyWritable(sh, c, m, t)
    ensures RecordsKept(c.slabs, m, t)
  {
    WritesMissPages(sh, c, m, t);
    WritesLength(sh, c, m, t);
    hide SameBytes, Spread, OnlyWritable;
    forall a | a in c.slabs
      ensures SameBytes(m, t, a + 16, a + 36)
    {
      SubrangeKept(m, t, a, a + 4096, a + 16, a + 36);
    }
  }
}
