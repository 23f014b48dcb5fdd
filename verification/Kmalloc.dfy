// Small memory buffers (kmalloc and kfree): one cache for each power of two from 32 bytes up, and a
// header byte in front of each buffer that names its cache.
module Kmalloc {
  import opened Powers
  import opened BuddyTree
  import opened BuddySteps
  import opened Sequences
  import BuddySpec
  import opened BuddyMemory
  import opened Buddy
  import opened Memory64
  import opened SlabSpec
  import opened SlabMemory
  import opened SlabRecords
  import opened SlabBlocks
  import opened SlabFrames
  import opened SlabSteps
  import opened SlabLive
  import opened SlabSupply
  import opened SlabMoves
  import opened Slab
  import opened SlabLifetime

  // entry is the number of the smallest buffer class that holds size bytes.
  ghost predicate Adequate(size: nat, entry: nat) {
    size <= 32 * Pow2(entry) && (entry > 0 ==> 32 * Pow2(entry - 1) < size)
  }

  // find_adequate_small_memory_buffer
  method FindBuffer(actualSize: nat) returns (entry: nat)
    ensures forall j: nat :: Adequate(actualSize, j) <==> j == entry
  {
    var bufferSize := 32;
    entry := 0;
    while bufferSize < actualSize
      invariant bufferSize == 32 * Pow2(entry) && (entry > 0 ==> 32 * Pow2(entry - 1) < actualSize)
      decreases actualSize - bufferSize
    {
      bufferSize := bufferSize * 2;
      entry := entry + 1;
    }
    forall j: nat | Adequate(actualSize, j)
      ensures j == entry
    {
      ClassUnique(actualSize, j, entry);
    }
  }

  lemma ClassWithin(size: nat, entry: nat)
    requires Adequate(size, entry) && size <= 131072
    ensures entry <= 12
  {
    assert Pow2(12) == 4096;
    if entry > 12 {
      Pow2Monotonic(12, entry - 1);
    }
  }

  // The class is the only one with this property.
  lemma ClassUnique(size: nat, a: nat, b: nat)
    requires Adequate(size, a) && Adequate(size, b)
    ensures a == b
  {
    if a < b {
      Pow2Monotonic(a, b - 1);
    } else if b < a {
      Pow2Monotonic(b, a - 1);
    }
  }

  // The order of a slab of class j.
  function BufferOrder(j: nat): nat {
    if j <= 4 then 0 else j - 4
  }

  lemma ClassOrder(j: nat)
    ensures SlabOrder(32 * Pow2(j)) == BufferOrder(j)
  {
    PowerOfClass(j);
    SlabOrderUnique(32 * Pow2(j), BufferOrder(j));
  }

  lemma PowerOfClass(j: nat)
    ensures Pow2(j) >= 1 && Pow2(j) <= 16 * Pow2(BufferOrder(j))
    ensures BufferOrder(j) > 0 ==> 16 * Pow2(BufferOrder(j) - 1) < Pow2(j)
  {
    if j <= 4 {
      assert Pow2(4) == 16 && Pow2(0) == 1;
      Pow2Monotonic(j, 4);
    } else {
      assert Pow2(j - 2) == 4 * Pow2(j - 4) && Pow2(j) == 4 * Pow2(j - 2);
      assert Pow2(j - 4) == 2 * Pow2(j - 5);
    }
  }

  // ----- one cache at work leaves the other caches alone

  ghost function HeldBlocks(s: Site, slabs: map<nat, SlabInfo>): set<nat> {
    Blocks(s.p, s.home, s.order, slabs)
  }

  lemma OwnsItself(s: Site, slabs: map<nat, SlabInfo>)
    requires Owns(s.p, s.live, s.home, s.order, s.sh, slabs)
    ensures Owns(s.p, HeldBlocks(s, slabs), s.home, s.order, s.sh, slabs) && HeldBlocks(s, slabs) <= s.live
  {
    hide BlockAt, Address, Depth;
    var held := HeldBlocks(s, slabs);
    forall a | a in slabs
      ensures LiveAt(s.p, held, a, 0) && LiveAt(s.p, held, slabs[a].memory, s.order)
    {
      assert LiveAt(s.p, s.live, a, 0) && LiveAt(s.p, s.live, slabs[a].memory, s.order);
    }
  }

  // A cache depends on nothing but the bytes of its own blocks.
  lemma StockedElsewhere(s: Site, m: seq<byte>, h: Heads, c: Cache, live: set<nat>, t: seq<byte>)
    requires Stocked(s, m, h, c) && Kept(s.p.n, s.p.start, m, t, HeldBlocks(s, c.slabs))
    requires HeldBlocks(s, c.slabs) <= live && Separate(live)
    ensures Stocked(s.(live := live), t, h, c) && ObjectsKept(s.sh, c, m, t)
  {
    hide *;
    StockedParts(s, m, h, c);
    OwnsItself(s, c.slabs);
    var held := HeldBlocks(s, c.slabs);
    BuddyKeepsCache(s.p, s.sh, m, t, held, s.home, s.order, h, c);
    KeptObjects(s.p, held, s.home, s.order, s.sh, c, m, t);
    OwnsMore(s.p, held, live, s.home, s.order, s.sh, c.slabs);
    MakeStocked(s.(live := live), t, h, c);
  }

  lemma RecordedElsewhere(s: Site, m: seq<byte>, slabs: map<nat, SlabInfo>, t: seq<byte>)
    requires Owns(s.p, s.live, s.home, s.order, s.sh, slabs) && Recorded(m, slabs)
    requires Kept(s.p.n, s.p.start, m, t, HeldBlocks(s, slabs))
    ensures Recorded(t, slabs)
  {
    hide *;
    OwnsItself(s, slabs);
    OwnersKeepRecords(s.p, HeldBlocks(s, slabs), s.home, s.order, s.sh, slabs, m, t);
    RecordedThen(m, t, slabs);
  }

  // The header byte of every live object is j.
  ghost predicate Tagged(sh: Shape, c: Cache, m: seq<byte>, j: nat) {
    forall o: nat :: Live(sh, c, o) ==> o < |m| && m[o] as nat == j
  }

  lemma TaggedKept(sh: Shape, c: Cache, m: seq<byte>, t: seq<byte>, j: nat)
    requires Tagged(sh, c, m, j) && ObjectsKept(sh, c, m, t) && sh.objSize > 0
    ensures Tagged(sh, c, t, j)
  {
    hide Live;
    forall o: nat | Live(sh, c, o)
      ensures o < |t| && t[o] as nat == j
    {
      assert SameByte(m, t, o);
    }
  }

  // Objects of two caches that hold different blocks do not overlap.
  lemma CachesApart(s: Site, m: seq<byte>, h: Heads, c: Cache, s': Site, h': Heads, c': Cache, x: nat, y: nat)
    requires Stocked(s, m, h, c) && Stocked(s', m, h', c') && s.p == s'.p && s.live == s'.live
    requires HeldBlocks(s, c.slabs) !! HeldBlocks(s', c'.slabs) && Live(s.sh, c, x) && Live(s'.sh, c', y)
    ensures Disjoint(x, s.sh.objSize, y, s'.sh.objSize)
  {
    hide *;
    StockedParts(s, m, h, c);
    StockedParts(s', m, h', c');
    var a := LiveWhere(s.sh, c, x);
    var b := LiveWhere(s'.sh, c', y);
    MemoryHeld(s, c.slabs, a);
    MemoryHeld(s', c'.slabs, b);
    LiveDisjoint(s.p, s.live, c.slabs[a].memory, s.order, c'.slabs[b].memory, s'.order);
    InsideDisjoint(x, s.sh.objSize, y, s'.sh.objSize, c.slabs[a].memory, s.sh.slabSize, c'.slabs[b].memory,
                   s'.sh.slabSize);
  }

  lemma MemoryHeld(s: Site, slabs: map<nat, SlabInfo>, a: nat)
    requires Owns(s.p, s.live, s.home, s.order, s.sh, slabs) && a in slabs
    ensures LiveAt(s.p, s.live, slabs[a].memory, s.order) &&
            BlockAt(s.p, slabs[a].memory, s.order) in HeldBlocks(s, slabs)
    ensures s.sh.slabSize == 4096 * Pow2(s.order)
  {
  }

  lemma InsideDisjoint(x: nat, i: nat, y: nat, j: nat, a: nat, k: nat, b: nat, l: nat)
    requires Disjoint(a, k, b, l) && a <= x && x + i <= a + k && b <= y && y + j <= b + l
    ensures Disjoint(x, i, y, j)
  {
  }

  // The fields of a cache are as they were.
  twostate predicate SameCache(d: KmemCache?)
    reads d
  {
    d != null ==> d.heads == old(d.heads) && d.slabs == old(d.slabs) && d.value == old(d.value)
  }

  // A cache none of whose blocks changes a byte stays sound, with the same blocks and objects.
  twostate lemma Undisturbed(d: KmemCache)
    requires old(d.Valid()) && SameCache(d) && d.buddy.Valid()
    requires old(HeldBlocks(d.At(), d.slabs)) <= d.buddy.live
    requires Kept(d.buddy.n, d.buddy.start, old(d.buddy.mem[..]), d.buddy.mem[..], old(HeldBlocks(d.At(), d.slabs)))
    ensures d.Valid() && HeldBlocks(d.At(), d.slabs) == old(HeldBlocks(d.At(), d.slabs))
    ensures ObjectsKept(d.sh, d.value, old(d.buddy.mem[..]), d.buddy.mem[..])
  {
    hide *;
    ghost var s, m := old(d.At()), old(d.buddy.mem[..]);
    OldParts(d);
    StockedParts(s, m, d.heads, d.value);
    SiteParts(d);
    SameSlabs(d);
    LiveSeparate(d.buddy);
    HeldIs(s, d.slabs);
    HeldIs(d.At(), d.slabs);
    StockedElsewhere(s, m, d.heads, d.value, d.buddy.live, d.buddy.mem[..]);
    RecordedElsewhere(s, m, d.slabs, d.buddy.mem[..]);
    d.MakeValid();
  }

  twostate lemma SameSlabs(d: KmemCache)
    requires SameCache(d)
    ensures d.slabs == old(d.slabs) && d.value == old(d.value) && d.heads == old(d.heads)
  {
  }

  twostate lemma OldParts(d: KmemCache)
    requires old(d.Valid()) && SameCache(d)
    ensures d.value.slabs == d.slabs && Stocked(old(d.At()), old(d.buddy.mem[..]), d.heads, d.value)
    ensures Counted(d.sh, d.slabs, d.value.free) && Recorded(old(d.buddy.mem[..]), d.slabs)
  {
    hide Stocked, Counted;
  }

  twostate lemma SiteParts(d: KmemCache)
    ensures d.At() == old(d.At()).(live := d.buddy.live) && old(d.At()).p == Place(d.buddy.n, d.buddy.start) &&
            old(d.At()).sh == d.sh
    ensures old(d.At()).home == d.home && old(d.At()).order == d.order
  {
  }

  lemma HeldIs(s: Site, slabs: map<nat, SlabInfo>)
    ensures HeldBlocks(s, slabs) == Blocks(s.p, s.home, s.order, slabs)
  {
  }

  // The blocks of a cache are the live blocks that are not somebody else's.
  lemma HeldOrOthers(d: KmemCache)
    requires d.Valid()
    ensures HeldBlocks(d.At(), d.slabs) <= d.buddy.live
    ensures d.Others() == d.buddy.live - HeldBlocks(d.At(), d.slabs)
  {
    hide *;
    d.HoldingParts();
    d.Names();
    StockedParts(d.At(), d.buddy.mem[..], d.heads, d.value);
    OwnsItself(d.At(), d.slabs);
    HeldIs(d.At(), d.slabs);
    OthersIs(d.At(), d.slabs);
    LiveOfSite(d);
  }

  lemma LiveOfSite(d: KmemCache)
    ensures d.At().live == d.buddy.live
  {
  }

  class SmallBuffers {
    const buddy: BuddyAllocator
    var buffers: seq<KmemCache?>

    constructor (buddy: BuddyAllocator)
      requires buddy.Valid() && 8 <= buddy.n
      ensures this.buddy == buddy && Valid() && |buffers| == 13 && forall c :: c in buffers ==> c == null
      ensures forall j, o: nat :: !InUse(j, o)
    {
      this.buddy := buddy;
      buffers := seq(13, _ => null);
    }

    // Cache j is absent or sound, its objects have 32 * 2^j bytes, and each live one starts with byte j.
    ghost predicate BufferOk(j: nat)
      requires j < |buffers|
      reads this, buffers, buddy, buddy.mem, buddy.bitmap, buddy.freeList
    {
      buffers[j] != null ==>
        && buffers[j].buddy == buddy && buffers[j].Valid() && buffers[j].sh.objSize == 32 * Pow2(j)
        && buffers[j].order == BufferOrder(j)
        && Tagged(buffers[j].sh, buffers[j].value, buddy.mem[..], j)
    }

    ghost function Held(j: nat): set<nat>
      requires j < |buffers|
      reads this, buffers, buddy
    {
      if buffers[j] == null || buffers[j].buddy != buddy then {} else HeldBlocks(buffers[j].At(), buffers[j].slabs)
    }

    ghost predicate Distinct()
      reads this, buffers, buddy
    {
      forall i, j :: 0 <= i < j < |buffers| && buffers[i] != null && buffers[j] != null ==>
        buffers[i] != buffers[j] && Held(i) !! Held(j)
    }

    // 13 classes; a heap of at least 2^8 pages can hold a slab of each.
    ghost predicate Valid()
      reads this, buffers, buddy, buddy.mem, buddy.bitmap, buddy.freeList
    {
      && |buffers| == 13 && buddy.Valid() && 8 <= buddy.n
      && (forall j :: 0 <= j < 13 ==> BufferOk(j))
      && Distinct()
    }

    // Address o is an object of class j handed out and not yet given back.
    ghost predicate InUse(j: nat, o: nat)
      reads this, buffers
    {
      j < |buffers| && buffers[j] != null && Live(buffers[j].sh, buffers[j].value, o)
    }

    // The live blocks that are no cache's.
    ghost function Foreign(): set<nat>
      reads this, buffers, buddy
    {
      set x | x in buddy.live && forall j :: 0 <= j < |buffers| ==> x !in Held(j)
    }

    // A buffer of class j can be had: its cache has a free object or can get a slab; when it has no cache
    // yet, there is a page for one and then a slab.
    ghost predicate Available(j: nat)
      reads this, buffers, buddy
    {
      j < |buffers| && BufferOrder(j) < |buddy.lists| &&
      if buffers[j] != null then
        buffers[j].value.partial != [] || buffers[j].value.empty != [] || CanTakeTwo(buddy.lists, BufferOrder(j))
      else
        match BuddySpec.Alloc(buddy.lists, 0)
        case None => false
        case Some((after, _)) => BufferOrder(j) < |after| && CanTakeTwo(after, BufferOrder(j))
    }

    // Cache j was not at work: it is sound, its blocks are the same, and so are its objects and their bytes.
    twostate predicate Calm(j: nat)
      requires |buffers| == 13 && old(|buffers|) == 13 && j < 13
      reads this, buffers, buddy, buddy.mem, buddy.bitmap, buddy.freeList
    {
      && BufferOk(j) && Held(j) == old(Held(j)) && buffers[j] == old(buffers[j])
      && (forall o: nat :: InUse(j, o) <==> old(InUse(j, o)))
      && (forall o: nat :: InUse(j, o) ==> SameBytes(old(buddy.mem[..]), buddy.mem[..], o, o + 32 * Pow2(j)))
    }

    // The live blocks that cache e does not hold.
    ghost function Rest(e: nat): set<nat>
      requires e < |buffers|
      reads this, buffers, buddy
    {
      buddy.live - Held(e)
    }

    // Cache e worked, in its own blocks only, and is sound: so is everything else.
    twostate lemma OneAtWork(e: nat)
      requires old(Valid()) && buddy.Valid() && |buffers| == 13 && old(|buffers|) == 13 && e < 13 && BufferOk(e)
      requires forall j: nat :: j < 13 && j != e ==>
               buffers[j] == old(buffers[j]) && SameCache(buffers[j]) &&
               (buffers[j] != null ==> buffers[j] != buffers[e])
      requires Kept(buddy.n, buddy.start, old(buddy.mem[..]), buddy.mem[..], Rest(e)) && Rest(e) == old(Rest(e))
      ensures Valid() && Foreign() == old(Foreign())
      ensures Kept(buddy.n, buddy.start, old(buddy.mem[..]), buddy.mem[..], Foreign())
      ensures forall j: nat :: j < 13 && j != e ==> Calm(j)
    {
      hide *;
      AllCalm(e);
      SoundAgain(e);
      ForeignAgain(e);
      KeptSubset(buddy.n, buddy.start, old(buddy.mem[..]), buddy.mem[..], Rest(e), Foreign());
    }

    twostate lemma AllCalm(e: nat)
      requires old(Valid()) && buddy.Valid() && old(|buffers|) == |buffers| == 13 && e < 13
      requires forall j: nat :: j < 13 && j != e ==> buffers[j] == old(buffers[j]) && SameCache(buffers[j])
      requires Kept(buddy.n, buddy.start, old(buddy.mem[..]), buddy.mem[..], Rest(e)) && Rest(e) == old(Rest(e))
      ensures forall j: nat :: j < 13 && j != e ==> Calm(j) && Held(j) <= Rest(e)
    {
      hide *;
      forall j: nat | j < 13 && j != e
        ensures Calm(j) && Held(j) <= Rest(e)
      {
        Bystander((e, j));
      }
    }

    twostate lemma SoundAgain(e: nat)
      requires old(Valid()) && buddy.Valid() && old(|buffers|) == |buffers| == 13 && e < 13 && BufferOk(e)
      requires forall j: nat :: j < 13 && j != e ==>
               (buffers[j] != null ==> buffers[j] != buffers[e]) && Calm(j) && Held(j) <= Rest(e)
      ensures Valid()
    {
      hide BufferOk, Held, BuddyAllocator.Valid, SameBytes, InUse;
      forall i, j | 0 <= i < j < 13 && buffers[i] != null && buffers[j] != null
        ensures buffers[i] != buffers[j] && Held(i) !! Held(j)
      {
        if i != e {
          assert Calm(i);
        }
        if j != e {
          assert Calm(j);
        }
        if i != e && j != e {
          assert old(Held(i)) !! old(Held(j));
        }
      }
      forall j: nat | j < 13
        ensures BufferOk(j)
      {
        if j != e {
          assert Calm(j);
        }
      }
    }

    twostate lemma ForeignAgain(e: nat)
      requires old(|buffers|) == |buffers| == 13 && e < 13
      requires forall j: nat :: j < 13 && j != e ==> Calm(j)
      requires Rest(e) == old(Rest(e))
      ensures Foreign() == old(Foreign()) && Foreign() <= Rest(e)
    {
      hide Held, BufferOk, InUse, SameBytes;
      forall j: nat | j < 13 && j != e
        ensures Held(j) == old(Held(j))
      {
        assert Calm(j);
      }
      forall x
        ensures x in Foreign() <==> x in Rest(e) && forall j: nat :: j < 13 && j != e ==> x !in Held(j)
      {
      }
      forall x
        ensures old(x in Foreign()) <==> x in old(Rest(e)) && forall j: nat :: j < 13 && j != e ==> x !in old(Held(j))
      {
      }
    }

    // Whoever was at work: cache j was not, and its blocks are live and keep their bytes.
    twostate lemma Untouched(j: nat)
      requires old(Valid()) && buddy.Valid() && old(|buffers|) == |buffers| == 13 && j < 13
      requires buffers[j] == old(buffers[j]) && SameCache(buffers[j]) && old(Held(j)) <= buddy.live
      requires Kept(buddy.n, buddy.start, old(buddy.mem[..]), buddy.mem[..], old(Held(j)))
      ensures Calm(j)
    {
      hide *;
      InUseSame(j);
      OldFacts(j);
      if buffers[j] == null {
        NullFacts(j);
      } else {
        Undisturbed(buffers[j]);
        TaggedKept(buffers[j].sh, buffers[j].value, old(buddy.mem[..]), buddy.mem[..], j);
        NewFacts(j, old(buddy.mem[..]));
      }
      MakeCalm(j);
    }

    // Others were at work, the buddy allocator itself or caches that are none of these, and kept the bytes
    // of some live blocks among which all blocks of these caches are. Then every buffer in use is still in
    // use, with the same bytes, and its header still names its class.
    twostate lemma OthersAtWork(kept: set<nat>)
      requires old(Valid()) && buddy.Valid() && buffers == old(buffers)
      requires forall j: nat :: j < 13 ==> SameCache(buffers[j]) && old(Held(j)) <= kept
      requires kept <= buddy.live && Kept(buddy.n, buddy.start, old(buddy.mem[..]), buddy.mem[..], kept)
      ensures Valid()
      ensures forall j: nat :: j < 13 ==> Calm(j) && Held(j) <= kept
    {
      hide *;
      OldSound();
      forall j: nat | j < 13
        ensures Calm(j) && Held(j) <= kept
      {
        KeptSubset(buddy.n, buddy.start, old(buddy.mem[..]), buddy.mem[..], kept, old(Held(j)));
        Untouched(j);
        CalmParts(j);
      }
      AllSound();
    }

    // Whatever another cache on the same heap does, by its own operations, leaves the buffers alone.
    twostate lemma OtherCacheAtWork(d: KmemCache)
      requires old(Valid()) && d.buddy == buddy && d.Valid() && buffers == old(buffers)
      requires forall j: nat :: j < 13 ==> SameCache(buffers[j]) && old(Held(j)) <= old(d.Others())
      requires d.Others() == old(d.Others())
      requires Kept(buddy.n, buddy.start, old(buddy.mem[..]), buddy.mem[..], d.Others())
      ensures Valid()
      ensures forall j: nat :: j < 13 ==> Calm(j) && Held(j) <= d.Others()
    {
      hide *;
      d.HoldingParts();
      d.Names();
      LiveOfSite(d);
      FewerOthers(d.At(), d.slabs);
      OthersAtWork(d.Others());
    }

    // The buddy allocator by itself leaves them alone, whatever it is asked for, as long as no block of
    // theirs is freed.
    twostate lemma BuddyAtWork()
      requires old(Valid()) && buddy.Valid() && buffers == old(buffers)
      requires forall j: nat :: j < 13 ==> SameCache(buffers[j]) && old(Held(j)) <= buddy.live
      requires Kept(buddy.n, buddy.start, old(buddy.mem[..]), buddy.mem[..], buddy.live)
      ensures Valid()
      ensures forall j: nat :: j < 13 ==> Calm(j) && Held(j) <= buddy.live
    {
      hide *;
      OthersAtWork(buddy.live);
    }

    twostate lemma OldSound()
      requires old(Valid()) && buffers == old(buffers)
      ensures |buffers| == 13 && old(|buffers|) == 13 && 8 <= buddy.n
    {
    }

    twostate lemma CalmParts(j: nat)
      requires |buffers| == 13 && old(|buffers|) == 13 && j < 13 && Calm(j)
      ensures BufferOk(j) && Held(j) == old(Held(j)) && buffers[j] == old(buffers[j])
    {
      hide BufferOk, Held, SameBytes, InUse;
    }

    // Object v.1 of class v.0.
    twostate lemma CalmUse(v: (nat, nat))
      requires |buffers| == 13 && old(|buffers|) == 13 && v.0 < 13 && Calm(v.0)
      ensures InUse(v.0, v.1) <==> old(InUse(v.0, v.1))
      ensures InUse(v.0, v.1) ==> SameBytes(old(buddy.mem[..]), buddy.mem[..], v.1, v.1 + 32 * Pow2(v.0))
    {
      hide BufferOk, Held, InUse, SameBytes;
    }

    twostate lemma AllSound()
      requires old(Valid()) && buddy.Valid() && |buffers| == 13 && old(|buffers|) == 13 && 8 <= buddy.n
      requires forall j: nat :: j < 13 ==> Calm(j)
      ensures Valid()
    {
      hide BufferOk, Held, BuddyAllocator.Valid, SameBytes, InUse;
      forall i, j | 0 <= i < j < 13 && buffers[i] != null && buffers[j] != null
        ensures buffers[i] != buffers[j] && Held(i) !! Held(j)
      {
        assert Calm(i) && Calm(j);
        assert old(Held(i)) !! old(Held(j));
      }
      forall j: nat | j < 13
        ensures BufferOk(j)
      {
        assert Calm(j);
      }
    }

    // w names the cache at work and another one.
    twostate lemma Bystander(w: (nat, nat))
      requires old(Valid()) && buddy.Valid() && old(|buffers|) == |buffers| == 13 && w.0 < 13 && w.1 < 13 && w.0 != w.1
      requires buffers[w.1] == old(buffers[w.1]) && SameCache(buffers[w.1])
      requires Kept(buddy.n, buddy.start, old(buddy.mem[..]), buddy.mem[..], Rest(w.0)) && Rest(w.0) == old(Rest(w.0))
      ensures Calm(w.1) && Held(w.1) <= Rest(w.0)
    {
      hide *;
      ghost var j := w.1;
      OldFacts(j);
      OldApart(w);
      RestIs(w.0);
      if buffers[j] != null {
        OldHeld(buffers[j]);
      }
      KeptSubset(buddy.n, buddy.start, old(buddy.mem[..]), buddy.mem[..], Rest(w.0), old(Held(j)));
      Untouched(j);
      CalmParts(j);
    }

    twostate lemma OldApart(w: (nat, nat))
      requires old(Valid()) && w.0 < 13 && w.1 < 13 && w.0 != w.1
      ensures old(Held(w.1)) !! old(Held(w.0))
    {
      hide KmemCache.Valid, Tagged, HeldBlocks, BuddyAllocator.Valid, BufferOk;
    }

    twostate lemma RestIs(e: nat)
      requires old(|buffers|) == |buffers| && e < |buffers|
      ensures Rest(e) <= buddy.live && old(Rest(e)) == old(buddy.live) - old(Held(e))
    {
    }

    twostate lemma MakeCalm(j: nat)
      requires |buffers| == 13 && old(|buffers|) == 13 && j < 13
      requires BufferOk(j) && Held(j) == old(Held(j)) && buffers[j] == old(buffers[j])
      requires forall o: nat :: InUse(j, o) <==> old(InUse(j, o))
      requires forall o: nat :: InUse(j, o) ==> SameBytes(old(buddy.mem[..]), buddy.mem[..], o, o + 32 * Pow2(j))
      ensures Calm(j)
    {
      hide BufferOk, Held, InUse, SameBytes;
    }

    // Soundness before the step, spelled out for cache j.
    twostate lemma OldFacts(j: nat)
      requires old(Valid()) && j < 13 && |buffers| == 13 && buffers[j] == old(buffers[j]) && SameCache(buffers[j])
      ensures buffers[j] == null ==> old(Held(j)) == {}
      ensures buffers[j] != null ==>
                && buffers[j].buddy == buddy && old(buffers[j].Valid()) && buffers[j].sh.objSize == 32 * Pow2(j) > 0
                && Tagged(buffers[j].sh, buffers[j].value, old(buddy.mem[..]), j) && buffers[j].order == BufferOrder(j)
                && old(Held(j)) == old(HeldBlocks(buffers[j].At(), buffers[j].slabs))
    {
      hide KmemCache.Valid, Tagged, HeldBlocks, BuddyAllocator.Valid;
      assert old(BufferOk(j));
    }

    twostate lemma OldHeld(d: KmemCache)
      requires old(d.Valid()) && SameCache(d)
      ensures old(HeldBlocks(d.At(), d.slabs)) <= old(d.buddy.live)
    {
      hide *;
      OldParts(d);
      SiteParts(d);
      SameSlabs(d);
      StockedParts(old(d.At()), old(d.buddy.mem[..]), d.heads, d.value);
      OwnsItself(old(d.At()), d.slabs);
      OldSite(d);
    }

    twostate lemma OldSite(d: KmemCache)
      ensures old(d.At()).live == old(d.buddy.live)
    {
    }

    twostate lemma InUseSame(j: nat)
      requires old(|buffers|) == |buffers| && j < |buffers| && buffers[j] == old(buffers[j]) && SameCache(buffers[j])
      ensures forall o: nat :: InUse(j, o) <==> old(InUse(j, o))
    {
    }

    lemma NullFacts(j: nat)
      requires j < |buffers| && buffers[j] == null
      ensures BufferOk(j) && Held(j) == {} && forall o: nat :: !InUse(j, o)
    {
    }

    // Cache j is sound after the step.
    lemma NewFacts(j: nat, m: seq<byte>)
      requires j < |buffers| && buffers[j] != null && buffers[j].buddy == buddy && buffers[j].Valid()
      requires buffers[j].sh.objSize == 32 * Pow2(j) && Tagged(buffers[j].sh, buffers[j].value, buddy.mem[..], j)
      requires buffers[j].order == BufferOrder(j)
      requires ObjectsKept(buffers[j].sh, buffers[j].value, m, buddy.mem[..])
      ensures BufferOk(j) && Held(j) == HeldBlocks(buffers[j].At(), buffers[j].slabs)
      ensures forall o: nat :: InUse(j, o) ==> SameBytes(m, buddy.mem[..], o, o + 32 * Pow2(j))
    {
      hide KmemCache.Valid, Tagged, HeldBlocks, Live, SameBytes;
    }

    // ----- what an operation does to the caches themselves

    // The state of the cache of class j; a class without one has no slabs.
    ghost function StateOf(j: nat): Cache
      requires j < |buffers|
      reads this, buffers
    {
      if buffers[j] == null then NO_SLABS else buffers[j].value
    }

    // The orders of the blocks that the next buffer of class j takes: none while its cache has a free object.
    ghost function Wanting(j: nat): seq<nat>
      requires j < |buffers|
      reads this, buffers
    {
      if buffers[j] == null then [0, 0, BufferOrder(j)] else buffers[j].Wanting()
    }

    // No class but j was touched.
    twostate predicate OnlyClass(j: nat)
      reads this, buffers
    {
      && |buffers| == 13 && old(|buffers|) == 13 && j < 13
      && (old(buffers[j]) != null ==> buffers[j] == old(buffers[j]))
      && forall i: nat :: i < 13 && i != j ==> buffers[i] == old(buffers[i]) && SameCache(buffers[i])
    }

    // Object r - 1 of class j was handed out, or nothing, 0: only this class was touched. Its state is what the
    // allocation of one object makes of it. The buddy allocator gave just the blocks that were wanted; when
    // there were not enough, at most a page for a new cache.
    twostate predicate Malloced(j: nat, r: nat)
      reads this, buffers, buddy
    {
      && OnlyClass(j)
      && if r != 0 then
           && buffers[j] != null
           && GotObject(buffers[j].sh, old(StateOf(j)), r - 1, buffers[j].value)
           && Supplied(old(buddy.live), old(buddy.lists), old(Wanting(j)), buddy.live, buddy.lists)
         else
           && StateOf(j) == old(StateOf(j))
           && Supplied(old(buddy.live), old(buddy.lists), if buffers[j] == old(buffers[j]) then [] else [0],
                       buddy.live, buddy.lists)
           && (buffers[j] == null ==> |buddy.lists| > 0 && BuddySpec.Alloc(buddy.lists, 0) == None)
    }

    // Object p - 1 of class j went back to the free list of its slab, and only this class was touched.
    twostate predicate Freed(j: nat, p: nat)
      reads this, buffers
    {
      && OnlyClass(j) && buffers[j] != null && p > 0
      && GaveObject(buffers[j].sh, old(StateOf(j)), p - 1, buffers[j].value)
    }

    twostate lemma MakeOnlyClass(e: nat)
      requires old(|buffers|) == |buffers| == 13 && e < 13
      requires old(buffers[e]) != null ==> buffers[e] == old(buffers[e])
      requires forall j: nat :: j < 13 && j != e ==> buffers[j] == old(buffers[j]) && SameCache(buffers[j])
      ensures OnlyClass(e)
    {
      hide SameCache;
    }

    lemma StateIs(j: nat)
      requires j < |buffers|
      ensures StateOf(j) == if buffers[j] == null then NO_SLABS else buffers[j].value
      ensures Wanting(j) == if buffers[j] == null then [0, 0, BufferOrder(j)] else buffers[j].Wanting()
    {
    }

    twostate lemma MakeFreed(w: (nat, nat))
      requires OnlyClass(w.0) && |buffers| == 13 && old(|buffers|) == 13 && w.0 < 13 && buffers[w.0] != null && w.1 > 0
      requires GaveObject(buffers[w.0].sh, old(StateOf(w.0)), w.1 - 1, buffers[w.0].value)
      ensures Freed(w.0, w.1)
    {
      hide OnlyClass, GaveObject, StateOf;
    }

    twostate lemma MakeMalloced(w: (nat, nat))
      requires OnlyClass(w.0) && |buffers| == 13 && old(|buffers|) == 13 && w.0 < 13
      requires w.1 != 0 ==> buffers[w.0] != null
      requires w.1 != 0 ==>
                 GotObject(buffers[w.0].sh, old(StateOf(w.0)), w.1 - 1, buffers[w.0].value)
      requires w.1 != 0 ==>
                 Supplied(old(buddy.live), old(buddy.lists), old(Wanting(w.0)), buddy.live, buddy.lists)
      requires w.1 == 0 ==> StateOf(w.0) == old(StateOf(w.0))
      requires w.1 == 0 ==>
                 Supplied(old(buddy.live), old(buddy.lists), if buffers[w.0] == old(buffers[w.0]) then [] else [0],
                          buddy.live, buddy.lists)
      requires w.1 == 0 && buffers[w.0] == null ==> |buddy.lists| > 0 && BuddySpec.Alloc(buddy.lists, 0) == None
      ensures Malloced(w.0, w.1)
    {
      hide OnlyClass, GotObject, Supplied, StateOf, Wanting, BuddySpec.Alloc;
    }

    twostate lemma MallocedParts(w: (nat, nat))
      requires Malloced(w.0, w.1)
      ensures OnlyClass(w.0) && |buffers| == 13 && old(|buffers|) == 13 && w.0 < 13
      ensures w.1 != 0 ==> buffers[w.0] != null
      ensures w.1 != 0 ==>
                GotObject(buffers[w.0].sh, old(StateOf(w.0)), w.1 - 1, buffers[w.0].value)
      ensures w.1 != 0 ==>
                Supplied(old(buddy.live), old(buddy.lists), old(Wanting(w.0)), buddy.live, buddy.lists)
      ensures w.1 == 0 ==> StateOf(w.0) == old(StateOf(w.0))
      ensures w.1 == 0 ==>
                Supplied(old(buddy.live), old(buddy.lists), if buffers[w.0] == old(buffers[w.0]) then [] else [0],
                         buddy.live, buddy.lists)
      ensures w.1 == 0 && buffers[w.0] == null ==> |buddy.lists| > 0 && BuddySpec.Alloc(buddy.lists, 0) == None
    {
      hide GotObject, Supplied, StateOf, Wanting, BuddySpec.Alloc, SameCache;
    }

    // No class but e.
    twostate lemma OnlyClassParts(e: nat)
      requires OnlyClass(e)
      ensures |buffers| == 13 && old(|buffers|) == 13 && e < 13
      ensures old(buffers[e]) != null ==> buffers[e] == old(buffers[e])
      ensures forall j: nat :: j < 13 && j != e ==> buffers[j] == old(buffers[j])
      ensures forall j: nat :: j < 13 && j != e && buffers[j] != null ==> buffers[j].heads == old(buffers[j].heads)
      ensures forall j: nat :: j < 13 && j != e && buffers[j] != null ==> buffers[j].slabs == old(buffers[j].slabs)
      ensures forall j: nat :: j < 13 && j != e && buffers[j] != null ==> buffers[j].value == old(buffers[j].value)
    {
    }

    // ----- the operations

    lemma Thirteen()
      requires Valid()
      ensures |buffers| == 13 && buddy.Valid() && buddy.n >= 8
    {
    }

    lemma CacheFacts(e: nat)
      requires Valid() && e < 13 && buffers[e] != null
      ensures buffers[e].buddy == buddy && buffers[e].Valid() && buffers[e].sh.objSize == 32 * Pow2(e) >= 32
      ensures buffers[e].order == BufferOrder(e) <= buddy.n
      ensures Tagged(buffers[e].sh, buffers[e].value, buddy.mem[..], e)
      ensures forall j: nat :: j < 13 && j != e ==> buffers[j] != buffers[e]
      ensures forall o: nat :: InUse(e, o) <==> Live(buffers[e].sh, buffers[e].value, o)
    {
      hide KmemCache.Valid, Tagged, HeldBlocks, Held, BuddyAllocator.Valid, Live;
      assert BufferOk(e);
    }

    lemma RestOthers(e: nat)
      requires e < |buffers| && buffers[e] != null && buffers[e].buddy == buddy && buffers[e].Valid()
      ensures Rest(e) == buffers[e].Others()
    {
      HeldOrOthers(buffers[e]);
      hide KmemCache.Valid, HeldBlocks, KmemCache.Others, BuddyAllocator.Valid;
    }

    lemma MakeOk(e: nat)
      requires e < |buffers| && buffers[e] != null && buffers[e].buddy == buddy && buffers[e].Valid()
      requires buffers[e].sh.objSize == 32 * Pow2(e) && Tagged(buffers[e].sh, buffers[e].value, buddy.mem[..], e)
      requires buffers[e].order == BufferOrder(e)
      ensures BufferOk(e)
    {
    }

    // kmem_cache_alloc from class entry, and the header byte; 0 exactly when no buffer can be had.
    method AllocFrom(entry: nat) returns (o: nat)
      requires Valid() && entry < 13 && buffers[entry] != null
      modifies buffers[entry], buddy, buddy.mem, buddy.bitmap, buddy.freeList
      ensures Valid() && Foreign() == old(Foreign())
      ensures Kept(buddy.n, buddy.start, old(buddy.mem[..]), buddy.mem[..], Foreign())
      ensures o == 0 <==> !old(Available(entry))
      ensures o == 0 ==> !Available(entry)
      ensures o != 0 ==> !old(InUse(entry, o))
      ensures if o != 0 then
                && GotObject(buffers[entry].sh, old(buffers[entry].value), o, buffers[entry].value)
                && Supplied(old(buddy.live), old(buddy.lists), old(buffers[entry].Wanting()), buddy.live, buddy.lists)
              else
                && buffers[entry].value == old(buffers[entry].value)
                && buddy.live == old(buddy.live) && buddy.lists == old(buddy.lists)
      ensures forall j: nat, x: nat :: InUse(j, x) <==> (j == entry && x == o && o != 0) || old(InUse(j, x))
      ensures forall j: nat, x: nat :: old(InUse(j, x)) ==>
              SameBytes(old(buddy.mem[..]), buddy.mem[..], x, x + 32 * Pow2(j))
    {
      hide *;
      Thirteen();
      ghost var m, v := buddy.mem[..], buffers[entry].value;
      CacheFacts(entry);
      RestOthers(entry);
      var c := buffers[entry];
      AvailableHere(entry);
      ghost var slab, v1;
      o, slab, v1 := c.Alloc([]);
      ghost var t := buddy.mem[..];
      if o != 0 {
        Got(c.sh, v, v1, slab, o, c.value);
      }
      if o == 0 {
        TaggedKept(c.sh, v, m, t, entry);
        ObjectsKeptBytes(c.sh, v, m, t);
      } else {
        c.Overwrite(o, [entry as byte]);
        KeptThen(buddy.n, buddy.start, m, t, buddy.mem[..], c.Others());
        HeaderWritten(c.sh, v, c.value, m, t, buddy.mem[..], o, entry);
      }
      c.HoldingParts();
      RestOthers(entry);
      MakeOk(entry);
      SameOthers(entry);
      OneAtWork(entry);
      CacheFacts(entry);
      AvailableHere(entry);
      Everyone((entry, o));
    }

    // What happened to cache w.0, from which object w.1 was taken (0 for none), and to the others.
    twostate lemma Everyone(w: (nat, nat))
      requires |buffers| == 13 && old(|buffers|) == 13 && w.0 < 13
      requires forall j: nat :: j < 13 && j != w.0 ==> Calm(j)
      requires forall x: nat :: InUse(w.0, x) <==> (x == w.1 && w.1 != 0) || old(InUse(w.0, x))
      requires forall x: nat :: old(InUse(w.0, x)) ==>
               SameBytes(old(buddy.mem[..]), buddy.mem[..], x, x + 32 * Pow2(w.0))
      ensures forall j: nat, x: nat :: InUse(j, x) <==> (j == w.0 && x == w.1 && w.1 != 0) || old(InUse(j, x))
      ensures forall j: nat, x: nat :: old(InUse(j, x)) ==>
              SameBytes(old(buddy.mem[..]), buddy.mem[..], x, x + 32 * Pow2(j))
    {
      hide BufferOk, Held, Live, SameBytes, Pow2;
      forall j: nat, x: nat
        ensures InUse(j, x) <==> (j == w.0 && x == w.1 && w.1 != 0) || old(InUse(j, x))
        ensures old(InUse(j, x)) ==> SameBytes(old(buddy.mem[..]), buddy.mem[..], x, x + 32 * Pow2(j))
      {
        if j < 13 && j != w.0 {
          assert Calm(j);
        }
      }
    }

    // kmem_cache_create for a class used for the first time.
    method AddBuffer(entry: nat)
      requires Valid() && entry < 13 && buffers[entry] == null
      modifies this, buddy, buddy.mem, buddy.bitmap, buddy.freeList
      ensures Valid() && Foreign() == old(Foreign())
      ensures Kept(buddy.n, buddy.start, old(buddy.mem[..]), buddy.mem[..], Foreign())
      ensures forall c :: c in buffers && c != null ==> c in old(buffers) || fresh(c)
      ensures buffers[entry] == null ==> !old(Available(entry)) && !Available(entry)
      ensures buffers[entry] != null ==> fresh(buffers[entry]) && (Available(entry) <==> old(Available(entry)))
      ensures buffers == old(buffers)[entry := buffers[entry]]
      ensures if buffers[entry] == null then
                && buddy.live == old(buddy.live) && buddy.lists == old(buddy.lists)
                && |buddy.lists| > 0 && BuddySpec.Alloc(buddy.lists, 0) == None
              else
                && buffers[entry].value == NO_SLABS && buffers[entry].order == BufferOrder(entry)
                && Supplied(old(buddy.live), old(buddy.lists), [0], buddy.live, buddy.lists)
      ensures forall j: nat, x: nat :: InUse(j, x) <==> old(InUse(j, x))
      ensures forall j: nat, x: nat :: old(InUse(j, x)) ==>
              SameBytes(old(buddy.mem[..]), buddy.mem[..], x, x + 32 * Pow2(j))
    {
      hide *;
      Thirteen();
      ClassFits(entry, buddy.n);
      NullFacts(entry);
      RestNull(entry);
      ghost var ls := buddy.lists;
      AvailableLater(entry);
      ClassOrder(entry);
      var c := CreateCache(buddy, 32 * Pow2(entry));
      if c == null {
        NullFacts(entry);
        RestNull(entry);
      } else {
        NewTagged(c.sh, buddy.mem[..], entry);
        ShapeIs(32 * Pow2(entry));
        buffers := buffers[entry := c];
        RestOthers(entry);
        MakeOk(entry);
        InUseNone(entry);
        AvailableNow(entry);
      }
      SameOthers(entry);
      OneAtWork(entry);
      if c == null {
        AvailableLater(entry);
      }
      Everyone((entry, 0));
    }

    // kmem_cache_destroy for the cache of class e, which has none from then on.
    method Retire(e: nat)
      requires Valid() && e < 13 && e < |buffers| && buffers[e] != null
      modifies this, buffers, buddy, buddy.mem, buddy.bitmap, buddy.freeList
      ensures Valid() && Foreign() == old(Foreign()) && buffers == old(buffers)[e := null]
      ensures Kept(buddy.n, buddy.start, old(buddy.mem[..]), buddy.mem[..], Foreign())
    {
      hide *;
      Thirteen();
      CacheFacts(e);
      RestOthers(e);
      buffers[e].Destroy();
      buffers := buffers[e := null];
      NullFacts(e);
      RestNull(e);
      SameOthers(e);
      OneAtWork(e);
    }

    // Whether a buffer can be had, with a cache and without.
    lemma AvailableHere(e: nat)
      requires Valid() && e < 13 && buffers[e] != null
      ensures buffers[e].Valid() && buffers[e].order <= buffers[e].buddy.n
      ensures Available(e) <==> buffers[e].CanServe()
    {
      hide *;
      Thirteen();
      CacheFacts(e);
      buffers[e].ServeParts();
      AvailableIs(e);
    }

    lemma AvailableIs(e: nat)
      requires e < |buffers| && buffers[e] != null && BufferOrder(e) < |buddy.lists|
      ensures Available(e) <==>
                buffers[e].value.partial != [] || buffers[e].value.empty != [] ||
                  CanTakeTwo(buddy.lists, BufferOrder(e))
    {
    }

    lemma AvailableNow(e: nat)
      requires e < |buffers| && buffers[e] != null && buffers[e].value == NO_SLABS
      ensures Available(e) <==> BufferOrder(e) < |buddy.lists| && CanTakeTwo(buddy.lists, BufferOrder(e))
    {
    }

    lemma AvailableLater(e: nat)
      requires Valid() && e < 13 && buffers[e] == null
      ensures |buddy.lists| > 0
      ensures BuddySpec.Alloc(buddy.lists, 0) == None ==> !Available(e)
      ensures forall after, x :: BuddySpec.Alloc(buddy.lists, 0) == Some((after, x)) ==>
                (Available(e) <==> BufferOrder(e) < |after| && CanTakeTwo(after, BufferOrder(e)))
    {
      hide *;
      Thirteen();
      buddy.ValidParts();
      OrderSmall(e);
      AvailableWithout(e);
    }

    lemma OrderSmall(e: nat)
      requires e < 13
      ensures BufferOrder(e) <= 8
    {
    }

    lemma AvailableWithout(e: nat)
      requires e < |buffers| && buffers[e] == null && BufferOrder(e) < |buddy.lists|
      ensures BuddySpec.Alloc(buddy.lists, 0) == None ==> !Available(e)
      ensures forall after, x :: BuddySpec.Alloc(buddy.lists, 0) == Some((after, x)) ==>
                (Available(e) <==> BufferOrder(e) < |after| && CanTakeTwo(after, BufferOrder(e)))
    {
      hide CanTakeTwo, BuddySpec.Alloc, BufferOrder;
    }

    lemma RestNull(e: nat)
      requires e < |buffers| && buffers[e] == null
      ensures Rest(e) == buddy.live
    {
    }

    lemma InUseNone(e: nat)
      requires e < |buffers| && buffers[e] != null && buffers[e].value == NO_SLABS
      ensures forall x: nat :: !InUse(e, x)
    {
    }

    // The first buffer of class entry: its cache is made, and the object taken from it.
    method FirstFrom(entry: nat) returns (o: nat)
      requires Valid() && entry < 13 && buffers[entry] == null
      modifies this, buddy, buddy.mem, buddy.bitmap, buddy.freeList
      ensures Valid() && Foreign() == old(Foreign())
      ensures Kept(buddy.n, buddy.start, old(buddy.mem[..]), buddy.mem[..], Foreign())
      ensures forall c :: c in buffers && c != null ==> c in old(buffers) || fresh(c)
      ensures o == 0 <==> !old(Available(entry))
      ensures o == 0 ==> !Available(entry)
      ensures o != 0 ==> !old(InUse(entry, o))
      ensures Malloced(entry, if o == 0 then 0 else o + 1)
      ensures forall i: nat, x: nat :: InUse(i, x) <==> (i == entry && x == o && o != 0) || old(InUse(i, x))
      ensures forall i: nat, x: nat :: old(InUse(i, x)) ==>
              SameBytes(old(buddy.mem[..]), buddy.mem[..], x, x + 32 * Pow2(i))
    {
      hide *;
      ghost var m, live, lists := buddy.mem[..], buddy.live, buddy.lists;
      Thirteen();
      StateIs(entry);
      ghost var want := Wanting(entry);
      NothingSupplied(live, lists);
      AddBuffer(entry);
      Thirteen();
      if buffers[entry] == null {
        SameOthers(entry);
        MakeOnlyClass(entry);
        StateIs(entry);
        MakeMalloced((entry, 0));
        return 0;
      }
      ghost var t, live1, lists1 := buddy.mem[..], buddy.live, buddy.lists;
      NewWanting(buffers[entry]);
      ghost var more := buffers[entry].Wanting();
      assert want == [0] + more;
      o := AllocFrom(entry);
      KeptThen(buddy.n, buddy.start, m, t, buddy.mem[..], Foreign());
      SameBytesAlways(m, t, buddy.mem[..]);
      if o != 0 {
        SuppliedThen(live, lists, [0], live1, lists1, more, buddy.live, buddy.lists);
      }
      SameOthers(entry);
      MakeOnlyClass(entry);
      StateIs(entry);
      MakeMalloced((entry, if o == 0 then 0 else o + 1));
    }

    // A buffer of size bytes behind a header byte that names its class, the smallest that holds buffer and
    // header; 0 exactly when no buffer of this class can be had.
    method Kmalloc(size: nat) returns (r: nat, ghost j: nat)
      requires Valid() && size <= 131071
      modifies this, buffers, buddy, buddy.mem, buddy.bitmap, buddy.freeList
      ensures Valid() && Foreign() == old(Foreign()) && Adequate(size + 1, j)
      ensures Kept(buddy.n, buddy.start, old(buddy.mem[..]), buddy.mem[..], Foreign())
      ensures forall c :: c in buffers && c != null ==> c in old(buffers) || fresh(c)
      ensures r == 0 <==> !old(Available(j))
      ensures r == 0 ==> !Available(j)
      ensures r != 0 ==> !old(InUse(j, r - 1))
      ensures Malloced(j, r)
      ensures forall i: nat, x: nat :: InUse(i, x) <==> (i == j && r != 0 && x == r - 1) || old(InUse(i, x))
      ensures forall i: nat, x: nat :: old(InUse(i, x)) ==>
              SameBytes(old(buddy.mem[..]), buddy.mem[..], x, x + 32 * Pow2(i))
    {
      hide *;
      Thirteen();
      var entry := FindBuffer(size + 1);
      j := entry;
      assert Adequate(size + 1, entry);
      ClassWithin(size + 1, entry);
      var start;
      label Found:
      if buffers[entry] == null {
        start := FirstFrom(entry);
        MallocedParts@Found((entry, if start == 0 then 0 else start + 1));
        OnlyClassParts@Found(entry);
      } else {
        StateIs(entry);
        CacheFacts(entry);
        NothingSupplied(buddy.live, buddy.lists);
        start := AllocFrom(entry);
        StateIs(entry);
      }
      r := if start == 0 then 0 else start + 1;
      SameOthers(entry);
      MakeOnlyClass(entry);
      MakeMalloced((entry, r));
    }

    lemma ForeignSelf(m: seq<byte>)
      ensures Kept(buddy.n, buddy.start, m, m, Foreign())
    {
    }

    // A class whose cache has a free object takes nothing: live blocks, free lists and the blocks of every
    // class are as before.
    twostate lemma NothingTaken(w: (nat, nat))
      requires old(Valid()) && Valid() && Malloced(w.0, w.1) && w.0 < 13 && |old(buffers)| == 13
      requires old(buffers[w.0]) != null &&
               (old(buffers[w.0].value.partial) != [] || old(buffers[w.0].value.empty) != [])
      ensures buddy.live == old(buddy.live) && buddy.lists == old(buddy.lists)
      ensures |buffers| == 13 && forall i: nat :: i < 13 ==> Held(i) == old(Held(i))
    {
      hide *;
      ghost var j := w.0;
      MallocedParts(w);
      OnlyClassParts(j);
      OldStateIs(j);
      StateIs(j);
      CacheFacts(j);
      OldSlabs(j);
      NoneSupplied(old(buddy.live), old(buddy.lists), buddy.live, buddy.lists);
      if w.1 != 0 {
        GotSamePlaces(buffers[j].sh, old(buffers[j].value), w.1 - 1, buffers[j].value);
      }
      buffers[j].HoldingParts();
      forall i: nat | i < 13
        ensures Held(i) == old(Held(i))
      {
        SameHeld(i);
      }
    }

    twostate lemma OldStateIs(j: nat)
      requires old(|buffers|) == 13 && j < 13 && old(buffers[j]) != null
      ensures old(StateOf(j)) == old(buffers[j].value)
      ensures old(buffers[j].value.partial) != [] || old(buffers[j].value.empty) != [] ==> old(Wanting(j)) == []
    {
    }

    twostate lemma OldSlabs(j: nat)
      requires old(Valid()) && old(|buffers|) == 13 && j < 13 && old(buffers[j]) != null
      ensures old(buffers[j].value.slabs) == old(buffers[j].slabs)
    {
      assert old(BufferOk(j));
    }

    // The blocks of a class depend on where its slabs are only.
    twostate lemma SameHeld(i: nat)
      requires |buffers| == 13 && old(|buffers|) == 13 && i < 13 && buffers[i] == old(buffers[i])
      requires buffers[i] != null ==>
                 && buffers[i].slabs.Keys == old(buffers[i].slabs.Keys)
                 && forall a :: a in old(buffers[i].slabs) ==>
                      buffers[i].slabs[a].memory == old(buffers[i].slabs[a].memory)
      ensures Held(i) == old(Held(i))
    {
    }

    // Gives the buffer p of class j back to the class its header names; null changes nothing.
    method Kfree(p: nat, ghost j: nat)
      requires Valid() && (p == 0 || InUse(j, p - 1))
      modifies buffers, buddy.mem
      ensures Valid() && Foreign() == old(Foreign())
      ensures Kept(buddy.n, buddy.start, old(buddy.mem[..]), buddy.mem[..], Foreign())
      ensures p == 0 ==> buddy.mem[..] == old(buddy.mem[..]) && forall c :: c in buffers && c != null ==> unchanged(c)
      ensures p != 0 ==> Freed(j, p)
      ensures forall i: nat, x: nat :: InUse(i, x) <==> old(InUse(i, x)) && !(i == j && p != 0 && x == p - 1)
      ensures forall i: nat, x: nat :: InUse(i, x) ==> SameBytes(old(buddy.mem[..]), buddy.mem[..], x, x + 32 * Pow2(i))
    {
      hide *;
      ghost var m := buddy.mem[..];
      if p == 0 {
        SameBytesSelf(m);
        ForeignSelf(m);
        return;
      }
      Thirteen();
      InUseClass(j, p - 1);
      CacheFacts(j);
      HeaderAt(buffers[j].sh, buffers[j].value, m, p - 1, j);
      var entry := buddy.mem[p - 1];
      RestOthers(j);
      var c := buffers[entry];
      ghost var v := c.value;
      StateIs(j);
      KnownLive(c, p - 1);
      ghost var slab := c.Free(p - 1, []);
      Gave(c.sh, v, slab, p - 1, c.value);
      KeptTagged(c.sh, v, c.value, m, buddy.mem[..], p - 1, j);
      c.HoldingParts();
      RestOthers(j);
      MakeOk(j);
      SameOthers(j);
      OneAtWork(j);
      CacheFacts(j);
      MakeOnlyClass(j);
      MakeFreed((j, p));
      EveryoneFreed((j, p - 1));
    }

    lemma InUseClass(j: nat, o: nat)
      requires Valid() && InUse(j, o)
      ensures j < 13 && buffers[j] != null && Live(buffers[j].sh, buffers[j].value, o)
    {
    }

    // Object w.1 went back to cache w.0.
    twostate lemma EveryoneFreed(w: (nat, nat))
      requires |buffers| == 13 && old(|buffers|) == 13 && w.0 < 13
      requires forall j: nat :: j < 13 && j != w.0 ==> Calm(j)
      requires forall x: nat :: InUse(w.0, x) <==> x != w.1 && old(InUse(w.0, x))
      requires forall x: nat :: InUse(w.0, x) ==> SameBytes(old(buddy.mem[..]), buddy.mem[..], x, x + 32 * Pow2(w.0))
      ensures forall j: nat, x: nat :: InUse(j, x) <==> old(InUse(j, x)) && !(j == w.0 && x == w.1)
      ensures forall j: nat, x: nat :: InUse(j, x) ==> SameBytes(old(buddy.mem[..]), buddy.mem[..], x, x + 32 * Pow2(j))
    {
      hide BufferOk, Held, Live, SameBytes, Pow2;
      forall j: nat, x: nat
        ensures InUse(j, x) <==> old(InUse(j, x)) && !(j == w.0 && x == w.1)
        ensures InUse(j, x) ==> SameBytes(old(buddy.mem[..]), buddy.mem[..], x, x + 32 * Pow2(j))
      {
        if j < 13 && j != w.0 {
          assert Calm(j);
        }
      }
    }

    // The holder of buffer p of class j writes in it, behind the header.
    method Fill(p: nat, image: seq<byte>, ghost j: nat)
      requires Valid() && p > 0 && InUse(j, p - 1) && 1 + |image| <= 32 * Pow2(j)
      modifies buddy.mem
      ensures Valid() && Foreign() == old(Foreign()) && forall i: nat, x: nat :: InUse(i, x) <==> old(InUse(i, x))
      ensures Kept(buddy.n, buddy.start, old(buddy.mem[..]), buddy.mem[..], Foreign())
      ensures p + |image| <= buddy.mem.Length && buddy.mem[p..p + |image|] == image
      ensures forall i: nat, x: nat :: InUse(i, x) && !(i == j && x == p - 1) ==>
                SameBytes(old(buddy.mem[..]), buddy.mem[..], x, x + 32 * Pow2(i))
    {
      hide *;
      Thirteen();
      InUseClass(j, p - 1);
      CacheFacts(j);
      ghost var m := buddy.mem[..];
      HeaderAt(buffers[j].sh, buffers[j].value, m, p - 1, j);
      RestOthers(j);
      var entry := buddy.mem[p - 1];
      var c := buffers[entry];
      c.Overwrite(p - 1, [entry] + image);
      assert ([entry] + image)[0] == entry && ([entry] + image)[1..] == image;
      assert buddy.mem[p - 1..p + |image|][1..] == buddy.mem[p..p + |image|];
      assert buddy.mem[p - 1] == buddy.mem[p - 1..p + |image|][0];
      FilledTagged(c.sh, c.value, m, buddy.mem[..], p - 1, j);
      c.HoldingParts();
      RestOthers(j);
      MakeOk(j);
      SameOthers(j);
      OneAtWork(j);
      CacheFacts(j);
      EveryoneFilled((j, p - 1));
    }

    // Object w.1 of cache w.0 was overwritten.
    twostate lemma EveryoneFilled(w: (nat, nat))
      requires |buffers| == 13 && old(|buffers|) == 13 && w.0 < 13
      requires forall j: nat :: j < 13 && j != w.0 ==> Calm(j)
      requires forall x: nat :: InUse(w.0, x) <==> old(InUse(w.0, x))
      requires forall x: nat :: InUse(w.0, x) && x != w.1 ==>
               SameBytes(old(buddy.mem[..]), buddy.mem[..], x, x + 32 * Pow2(w.0))
      ensures forall j: nat, x: nat :: InUse(j, x) <==> old(InUse(j, x))
      ensures forall j: nat, x: nat :: InUse(j, x) && !(j == w.0 && x == w.1) ==>
              SameBytes(old(buddy.mem[..]), buddy.mem[..], x, x + 32 * Pow2(j))
    {
      hide BufferOk, Held, Live, SameBytes, Pow2;
      forall j: nat, x: nat
        ensures InUse(j, x) <==> old(InUse(j, x))
        ensures InUse(j, x) && !(j == w.0 && x == w.1) ==>
                SameBytes(old(buddy.mem[..]), buddy.mem[..], x, x + 32 * Pow2(j))
      {
        if j < 13 && j != w.0 {
          assert Calm(j);
        }
      }
    }

    // Two buffers in use never overlap.
    lemma BuffersApart(i: nat, x: nat, j: nat, y: nat)
      requires Valid() && InUse(i, x) && InUse(j, y) && (i != j || x != y)
      ensures Disjoint(x, 32 * Pow2(i), y, 32 * Pow2(j))
    {
      hide *;
      Thirteen();
      InUseClass(i, x);
      InUseClass(j, y);
      CacheFacts(i);
      CacheFacts(j);
      ghost var c, d := buffers[i], buffers[j];
      c.HoldingParts();
      d.HoldingParts();
      if i == j {
        StockedParts(c.At(), buddy.mem[..], c.heads, c.value);
        SiteShape(c);
        LiveApart(c.sh, c.value, |buddy.mem[..]|, x, y);
        ApartIs(c.sh, x, y);
      } else {
        SiteShape(c);
        SiteShape(d);
        HeldApart(i, j);
        CachesApart(c.At(), buddy.mem[..], c.heads, c.value, d.At(), d.heads, d.value, x, y);
      }
    }

    lemma HeldApart(i: nat, j: nat)
      requires Valid() && i < 13 && j < 13 && i != j && buffers[i] != null && buffers[j] != null
      ensures HeldBlocks(buffers[i].At(), buffers[i].slabs) !! HeldBlocks(buffers[j].At(), buffers[j].slabs)
    {
      hide KmemCache.Valid, Tagged, HeldBlocks, BuddyAllocator.Valid;
      assert BufferOk(i) && BufferOk(j);
      assert Held(i) !! Held(j);
    }

    // Byte for byte the header of a buffer in use names its class.
    lemma HeaderNamesClass(j: nat, o: nat)
      requires Valid() && InUse(j, o)
      ensures o < buddy.mem.Length && buddy.mem[o] as nat == j < 13
    {
      hide *;
      Thirteen();
      InUseClass(j, o);
      CacheFacts(j);
      HeaderAt(buffers[j].sh, buffers[j].value, buddy.mem[..], o, j);
    }

    // Caches other than e whose fields were not written.
    twostate lemma SameOthers(e: nat)
      requires old(|buffers|) == |buffers| == 13 && e < 13 &&
               forall j: nat :: j < 13 && j != e ==> buffers[j] == old(buffers[j])
      requires forall j: nat :: j < 13 && j != e && buffers[j] != null ==> buffers[j].heads == old(buffers[j].heads)
      requires forall j: nat :: j < 13 && j != e && buffers[j] != null ==> buffers[j].slabs == old(buffers[j].slabs)
      requires forall j: nat :: j < 13 && j != e && buffers[j] != null ==> buffers[j].value == old(buffers[j].value)
      ensures forall j: nat :: j < 13 && j != e ==> buffers[j] == old(buffers[j]) && SameCache(buffers[j])
    {
    }
  }

  lemma NoneSupplied(live: set<nat>, lists: BuddySpec.Lists, live': set<nat>, lists': BuddySpec.Lists)
    requires Supplied(live, lists, [], live', lists')
    ensures live' == live && lists' == lists
  {
  }

  lemma Got(sh: Shape, c0: Cache, c: Cache, slab: nat, o: nat, c': Cache)
    requires Served(sh, c0, c, slab, o, c')
    ensures GotObject(sh, c0, o, c')
  {
    hide Served;
  }

  lemma Gave(sh: Shape, c: Cache, slab: nat, o: nat, c': Cache)
    requires Returned(sh, c, slab, o, c')
    ensures GaveObject(sh, c, o, c')
  {
    hide Returned;
  }

  lemma NewWanting(c: KmemCache)
    requires c.value == NO_SLABS
    ensures c.Wanting() == [0, c.order]
  {
  }

  lemma SiteShape(c: KmemCache)
    ensures c.At().sh == c.sh && c.At().p == Place(c.buddy.n, c.buddy.start) && c.At().live == c.buddy.live
  {
  }

  lemma ApartIs(sh: Shape, x: nat, y: nat)
    requires ObjectsApart(sh, x, y)
    ensures Disjoint(x, sh.objSize, y, sh.objSize)
  {
  }

  lemma HeaderAt(sh: Shape, c: Cache, m: seq<byte>, o: nat, j: nat)
    requires Tagged(sh, c, m, j) && Live(sh, c, o)
    ensures o < |m| && m[o] as nat == j
  {
  }

  lemma SameBytesSelf(m: seq<byte>)
    ensures forall lo: nat, hi: nat :: SameBytes(m, m, lo, hi)
  {
  }

  lemma SameBytesAlways(m: seq<byte>, u: seq<byte>, t: seq<byte>)
    ensures forall lo: nat, hi: nat :: SameBytes(m, u, lo, hi) && SameBytes(u, t, lo, hi) ==> SameBytes(m, t, lo, hi)
  {
    forall lo: nat, hi: nat | SameBytes(m, u, lo, hi) && SameBytes(u, t, lo, hi)
      ensures SameBytes(m, t, lo, hi)
    {
      forall i | lo <= i < hi
        ensures SameByte(m, t, i)
      {
        assert SameByte(m, u, i) && SameByte(u, t, i);
      }
    }
  }

  // After a free the objects still live keep their headers.
  lemma KeptTagged(sh: Shape, c: Cache, c': Cache, m: seq<byte>, t: seq<byte>, o: nat, j: nat)
    requires Tagged(sh, c, m, j) && ObjectsKept(sh, c', m, t) && sh.objSize > 0
    requires forall x: nat :: Live(sh, c', x) <==> x != o && Live(sh, c, x)
    ensures Tagged(sh, c', t, j) && forall x: nat :: Live(sh, c', x) ==> SameBytes(m, t, x, x + sh.objSize)
  {
    hide Live;
    forall x: nat | Live(sh, c', x)
      ensures x < |t| && t[x] as nat == j
    {
      assert SameByte(m, t, x);
    }
  }

  // After a write that leaves its header alone, every object has its header.
  lemma FilledTagged(sh: Shape, c: Cache, m: seq<byte>, t: seq<byte>, o: nat, j: nat)
    requires Tagged(sh, c, m, j) && sh.objSize > 0 && o < |t| == |m| && t[o] as nat == j
    requires forall x: nat :: Live(sh, c, x) && x != o ==> SameBytes(m, t, x, x + sh.objSize)
    ensures Tagged(sh, c, t, j)
  {
    hide Live;
    forall x: nat | Live(sh, c, x) && x != o
      ensures x < |t| && t[x] as nat == j
    {
      assert SameByte(m, t, x);
    }
  }

  lemma ClassFits(e: nat, n: nat)
    requires e < 13 && 8 <= n
    ensures 8 * ObjectSize(32 * Pow2(e)) <= 4096 * Pow2(n) && ObjectSize(32 * Pow2(e)) == 32 * Pow2(e)
  {
    assert Pow2(12) == 4096 && Pow2(8) == 256;
    Pow2Monotonic(e, 12);
    Pow2Monotonic(8, n);
  }

  lemma NewTagged(sh: Shape, m: seq<byte>, j: nat)
    ensures Tagged(sh, NO_SLABS, m, j)
  {
  }

  lemma ObjectsKeptBytes(sh: Shape, c: Cache, m: seq<byte>, t: seq<byte>)
    requires ObjectsKept(sh, c, m, t)
    ensures forall x: nat :: Live(sh, c, x) ==> SameBytes(m, t, x, x + sh.objSize)
  {
  }

  // The new object o gets its header; the objects of c keep their bytes, headers included.
  lemma HeaderWritten(sh: Shape, c: Cache, c': Cache, m: seq<byte>, u: seq<byte>, t: seq<byte>, o: nat, j: nat)
    requires Tagged(sh, c, m, j) && ObjectsKept(sh, c, m, u) && sh.objSize > 0 && |u| == |t| && j < 256
    requires !Live(sh, c, o) && forall x: nat :: Live(sh, c', x) <==> x == o || Live(sh, c, x)
    requires o + 1 <= |t| && t[o..o + 1] == [j as byte]
    requires forall x: nat :: Live(sh, c', x) && x != o ==> SameBytes(u, t, x, x + sh.objSize)
    ensures Tagged(sh, c', t, j) && forall x: nat :: Live(sh, c, x) ==> SameBytes(m, t, x, x + sh.objSize)
  {
    hide Live;
    assert t[o] == t[o..o + 1][0];
    forall x: nat | Live(sh, c, x)
      ensures SameBytes(m, t, x, x + sh.objSize)
    {
      forall i | x <= i < x + sh.objSize
        ensures SameByte(m, t, i)
      {
        assert SameByte(m, u, i) && SameByte(u, t, i);
      }
    }
    forall x: nat | Live(sh, c, x)
      ensures x < |t| && t[x] as nat == j
    {
      assert SameByte(m, t, x);
    }
  }
}
