// The whole life of a cache: created, used in any way by a client, destroyed.
module SlabLifetime {
  import opened Powers
  import opened BuddySteps
  import opened Sequences
  import opened BuddySpec
  import opened BuddyTheorems
  import opened BuddyMemory
  import opened BuddyBits
  import opened Buddy
  import opened Memory64
  import opened SlabSpec
  import opened SlabLinking
  import opened SlabMemory
  import opened SlabRecords
  import opened SlabBlocks
  import opened SlabFrames
  import opened SlabSteps
  import opened SlabSupply
  import opened SlabMoves
  import opened SlabTeardown
  import opened Slab

  const NO_SLABS := Cache([], [], [], map[], map[])

  lemma EmptyStocked(s: Site, m: seq<byte>)
    requires ShapeOk(s.sh) && |m| <= TWO_TO_64 && Separate(s.live)
    requires s.sh.slabSize == 4096 * Pow2(s.order) && LiveAt(s.p, s.live, s.home, 0)
    ensures Stocked(s, m, Heads(0, 0, 0), NO_SLABS)
    ensures OthersOf(s, map[]) == s.live - {BlockAt(s.p, s.home, 0)}
  {
  }

  // kmem_cache_create; null exactly when there is no page for the cache itself. Nothing is asked of the
  // size: a cache whose objects are too big for a slab is made all the same.
  method CreateCache(buddy: BuddyAllocator, size: nat) returns (cache: KmemCache?)
    requires buddy.Valid()
    modifies buddy, buddy.mem, buddy.bitmap, buddy.freeList
    ensures buddy.Valid() && Kept(buddy.n, buddy.start, old(buddy.mem[..]), buddy.mem[..], old(buddy.live))
    ensures |old(buddy.lists)| > 0 && (cache == null <==> BuddySpec.Alloc(old(buddy.lists), 0) == None)
    ensures cache == null ==> buddy.live == old(buddy.live) && buddy.lists == old(buddy.lists)
    ensures cache != null ==> fresh(cache) && cache.buddy == buddy && cache.Valid() && cache.Others() == old(buddy.live)
    ensures cache != null ==> Fitting(size, cache.sh, cache.order)
    ensures cache != null ==> Supplied(old(buddy.live), old(buddy.lists), [0], buddy.live, buddy.lists)
    ensures cache != null ==>
            cache.home != 0 && cache.value == NO_SLABS && cache.sh == ShapeFor(size) && cache.order == SlabOrder(size)
    ensures cache != null ==>
              BuddySpec.Alloc(old(buddy.lists), 0) ==
                Some((buddy.lists, BlockAt(Place(buddy.n, buddy.start), cache.home, 0)))
  {
    hide Canonical, Threaded, BitsShow, Kept, LiveAt, Stocked, OthersOf, ShapeOk, BlockAt, Supplied, BuddySpec.Alloc;
    ghost var m, live := buddy.mem[..], buddy.live;
    ghost var p := Place(buddy.n, buddy.start);
    buddy.ValidParts();
    PageOrder();
    var home := TakeBlock(buddy, 96, 0);
    if home == 0 {
      return null;
    }
    KeptSubset(buddy.n, buddy.start, m, buddy.mem[..], buddy.live, live);
    OneSupplied(live, old(buddy.lists), 0, BlockAt(p, home, 0), buddy.live, buddy.lists);
    cache := new KmemCache(buddy, home, size);
    LiveSeparate(buddy);
    cache.Names();
    MemoryFits(buddy);
    EmptyStocked(cache.At(), buddy.mem[..]);
    EmptyCounted(cache.sh);
    NoRecords(buddy.mem[..]);
    cache.MakeValid();
  }

  lemma EmptyCounted(sh: Shape)
    ensures Counted(sh, map[], map[])
  {
  }

  lemma MemoryFits(buddy: BuddyAllocator)
    requires buddy.Valid()
    ensures buddy.mem.Length < TWO_TO_64
  {
  }

  lemma PageOrder()
    ensures OrderFor(96) == 0
  {
    CeilLog2Unique(1, 0);
  }

  // What a client may ask of its cache: an object whose constructor writes image; its i-th object back,
  // whose destructor writes image; image written into its i-th object; the empty slabs given back.
  datatype Request = Get(image: seq<byte>) | Put(i: nat, image: seq<byte>) | Use(i: nat, image: seq<byte>) | Trim

  // An object a client holds, and what was last written at its start.
  datatype Held = Held(at: nat, image: seq<byte>)

  // A client's cache and the objects it holds, the last one got first.
  datatype Client = Client(value: Cache, held: seq<Held>)

  function Ats(held: seq<Held>): (s: seq<nat>)
    ensures |s| == |held| && forall i :: 0 <= i < |held| ==> s[i] == held[i].at
  {
    seq(|held|, i requires 0 <= i < |held| => held[i].at)
  }

  // Request q took the client from c to c' and was answered by r: the address of an object, or the number
  // of bytes given back. A request the client has no right to make changes nothing.
  ghost predicate Answered(sh: Shape, c: Client, q: Request, r: nat, c': Client) {
    match q
    case Get(image) =>
      if |image| <= sh.objSize then
        && r != 0 && c'.held == [Held(r, image)] + c.held
        && exists v, a :: Served(sh, c.value, v, a, r, c'.value)
      else c' == c
    case Put(i, image) =>
      if i < |c.held| && 16 + |image| <= sh.objSize then
        && c'.held == c.held[..i] + c.held[i + 1..]
        && exists a :: Returned(sh, c.value, a, c.held[i].at, c'.value)
      else c' == c
    case Use(i, image) =>
      if i < |c.held| && |image| <= sh.objSize then c' == c.(held := c.held[i := Held(c.held[i].at, image)])
      else c' == c
    case Trim =>
      c' == Client(Shrunk(c.value), c.held) && r == |c.value.empty| * sh.slabSize
  }

  // The requests qs, answered by rs, took the client from c to c'.
  ghost predicate Session(sh: Shape, c: Client, qs: seq<Request>, rs: seq<nat>, c': Client)
    decreases |qs|
  {
    var n := |qs| - 1;
    if n < 0 then rs == [] && c' == c
    else |rs| == n + 1 && exists c1 :: Session(sh, c, qs[..n], rs[..n], c1) && Answered(sh, c1, qs[n], rs[n], c')
  }

  lemma SessionStarts(sh: Shape, c: Client)
    ensures Session(sh, c, [], [], c)
  {
  }

  lemma SessionGoesOn(sh: Shape, c: Client, qs: seq<Request>, rs: seq<nat>, c1: Client, q: Request, r: nat, c2: Client)
    requires Session(sh, c, qs, rs, c1) && |rs| == |qs| && Answered(sh, c1, q, r, c2)
    ensures Session(sh, c, qs + [q], rs + [r], c2)
  {
    hide Answered;
    assert (qs + [q])[..|qs|] == qs && (rs + [r])[..|rs|] == rs;
  }

  // ----- how many objects a slab serves

  // Slab a is the only one, with n objects in use.
  ghost predicate SoleSlab(sh: Shape, v: Cache, a: nat, n: nat) {
    && v.slabs.Keys == {a} && v.free.Keys == {a} && v.slabs[a].objCounter == n && n + |v.free[a]| == sh.maxObjects
    && v.empty == [] && v.partial == (if n < sh.maxObjects then [a] else [])
    && v.full == if n < sh.maxObjects then [] else [a]
  }

  predicate OnlyGets(sh: Shape, qs: seq<Request>) {
    forall q :: q in qs ==> q.Get? && |q.image| <= sh.objSize
  }

  lemma FirstServed(sh: Shape, v: Cache, slab: nat, o: nat, v': Cache)
    requires ShapeOk(sh) && Served(sh, NO_SLABS, v, slab, o, v')
    ensures SoleSlab(sh, v', slab, 1)
  {
    var s := Slots(sh, v.slabs[slab].memory);
    assert v == Grown(NO_SLABS, slab, v.slabs[slab].memory, s) && |s| == sh.maxObjects;
    assert Without([slab], slab) == [];
  }

  lemma NextServed(sh: Shape, v0: Cache, a: nat, n: nat, v: Cache, slab: nat, o: nat, v': Cache)
    requires ShapeOk(sh) && 0 < n < sh.maxObjects && SoleSlab(sh, v0, a, n) && Served(sh, v0, v, slab, o, v')
    ensures SoleSlab(sh, v', a, n + 1)
  {
    assert slab == a;
    assert Without([a], a) == [];
  }

  // A new cache serves as many requests for objects as fit in one slab from a single slab, and one request
  // more from a second.
  lemma {:induction false} OneSlabServes(sh: Shape, qs: seq<Request>, rs: seq<nat>, c: Client)
    requires ShapeOk(sh) && OnlyGets(sh, qs) && Session(sh, Client(NO_SLABS, []), qs, rs, c)
    ensures qs == [] ==> c.value == NO_SLABS
    ensures 0 < |qs| <= sh.maxObjects ==> exists a: nat :: SoleSlab(sh, c.value, a, |qs|)
    ensures |qs| == sh.maxObjects + 1 ==> |c.value.slabs| == 2
    decreases |qs|
  {
    var n := |qs| - 1;
    if n >= 0 {
      var c1 :| Session(sh, Client(NO_SLABS, []), qs[..n], rs[..n], c1) && Answered(sh, c1, qs[n], rs[n], c);
      assert qs[n] in qs && forall q :: q in qs[..n] ==> q in qs;
      OneSlabServes(sh, qs[..n], rs[..n], c1);
      var v, slab :| Served(sh, c1.value, v, slab, rs[n], c.value);
      hide Answered, Session, Served, SoleSlab;
      if n == 0 {
        FirstServed(sh, v, slab, rs[n], c.value);
      } else if n < sh.maxObjects {
        var a: nat :| SoleSlab(sh, c1.value, a, n);
        NextServed(sh, c1.value, a, n, v, slab, rs[n], c.value);
      } else if n == sh.maxObjects {
        var a: nat :| SoleSlab(sh, c1.value, a, n);
        SecondSlab(sh, c1.value, a, v, slab, rs[n], c.value);
      }
    }
  }

  lemma SecondSlab(sh: Shape, v0: Cache, a: nat, v: Cache, slab: nat, o: nat, v': Cache)
    requires SoleSlab(sh, v0, a, sh.maxObjects) && Served(sh, v0, v, slab, o, v')
    ensures |v'.slabs| == 2
  {
    assert v'.slabs.Keys == {a, slab} && a != slab;
  }

  // What was last written at the start of an object is still there.
  ghost predicate ImageAt(sh: Shape, m: seq<byte>, h: Held) {
    |h.image| <= sh.objSize && h.at + |h.image| <= |m| && m[h.at..h.at + |h.image|] == h.image
  }

  // The live objects are just those the client holds, each once and with its contents.
  ghost predicate InHand(sh: Shape, c: Client, m: seq<byte>) {
    && NoDup(Ats(c.held)) && (forall o: nat :: Live(sh, c.value, o) <==> o in Ats(c.held))
    && (forall i :: 0 <= i < |c.held| ==> ImageAt(sh, m, c.held[i]))
  }

  lemma NothingInHand(sh: Shape, m: seq<byte>)
    ensures InHand(sh, Client(NO_SLABS, []), m)
  {
  }

  lemma ImageKept(sh: Shape, m: seq<byte>, t: seq<byte>, h: Held)
    requires ImageAt(sh, m, h) && SameBytes(m, t, h.at, h.at + sh.objSize)
    ensures ImageAt(sh, t, h)
  {
    forall j | h.at <= j < h.at + |h.image|
      ensures m[j] == t[j]
    {
      assert SameByte(m, t, j);
    }
  }

  lemma InHandLive(sh: Shape, c: Client, m: seq<byte>, i: nat)
    requires InHand(sh, c, m) && i < |c.held|
    ensures Live(sh, c.value, c.held[i].at)
  {
    assert Ats(c.held)[i] in Ats(c.held);
  }

  // A step that gives and takes nothing.
  lemma InHandKept(sh: Shape, c: Client, m: seq<byte>, v: Cache, t: seq<byte>)
    requires InHand(sh, c, m) && ObjectsKept(sh, v, m, t) && forall o: nat :: Live(sh, v, o) <==> Live(sh, c.value, o)
    ensures InHand(sh, Client(v, c.held), t)
  {
    hide Live, ImageAt, SameBytes;
    forall i: nat | i < |c.held|
      ensures ImageAt(sh, t, c.held[i])
    {
      InHandLive(sh, c, m, i);
      ImageKept(sh, m, t, c.held[i]);
    }
  }

  lemma InHandGot(sh: Shape, c: Client, m: seq<byte>, v: Cache, t: seq<byte>, h: Held)
    requires InHand(sh, c, m) && ObjectsKept(sh, c.value, m, t) && ImageAt(sh, t, h) && !Live(sh, c.value, h.at)
    requires forall o: nat :: Live(sh, v, o) <==> o == h.at || Live(sh, c.value, o)
    ensures InHand(sh, Client(v, [h] + c.held), t)
  {
    hide Live, ImageAt, SameBytes;
    InHandKept(sh, c, m, c.value, t);
    PushMember(Ats(c.held), h.at);
    assert Ats([h] + c.held) == [h.at] + Ats(c.held);
  }

  lemma CutMember(s: seq<nat>, i: nat)
    requires NoDup(s) && i < |s|
    ensures NoDup(s[..i] + s[i + 1..])
    ensures forall x: nat :: x in s[..i] + s[i + 1..] <==> x in s && x != s[i]
  {
    assert forall x: nat :: x in s && x != s[i] ==> x in s[..i] || x in s[i + 1..];
  }

  lemma InHandPut(sh: Shape, c: Client, m: seq<byte>, v: Cache, t: seq<byte>, i: nat)
    requires InHand(sh, c, m) && ObjectsKept(sh, v, m, t) && i < |c.held|
    requires forall o: nat :: Live(sh, v, o) <==> o != c.held[i].at && Live(sh, c.value, o)
    ensures InHand(sh, Client(v, c.held[..i] + c.held[i + 1..]), t)
  {
    var after := c.held[..i] + c.held[i + 1..];
    CutMember(Ats(c.held), i);
    assert Ats(after) == Ats(c.held)[..i] + Ats(c.held)[i + 1..];
    hide Live, ImageAt, SameBytes;
    forall j: nat | j < |after|
      ensures ImageAt(sh, t, after[j])
    {
      var k := if j < i then j else j + 1;
      assert after[j] == c.held[k] && Ats(c.held)[k] != Ats(c.held)[i];
      InHandLive(sh, c, m, k);
      ImageKept(sh, m, t, c.held[k]);
    }
  }

  lemma InHandUsed(sh: Shape, c: Client, m: seq<byte>, t: seq<byte>, i: nat, h: Held)
    requires InHand(sh, c, m) && i < |c.held| && h.at == c.held[i].at && ImageAt(sh, t, h)
    requires forall o: nat :: Live(sh, c.value, o) && o != h.at ==> SameBytes(m, t, o, o + sh.objSize)
    ensures InHand(sh, Client(c.value, c.held[i := h]), t)
  {
    var after := c.held[i := h];
    assert Ats(after) == Ats(c.held);
    hide Live, ImageAt, SameBytes;
    forall j: nat | j < |after|
      ensures ImageAt(sh, t, after[j])
    {
      if j != i {
        assert Ats(c.held)[j] != Ats(c.held)[i];
        InHandLive(sh, c, m, j);
        ImageKept(sh, m, t, c.held[j]);
      }
    }
  }

  // The client of a cache and its session with it; m is memory when the session began.
  ghost predicate Serving(cache: KmemCache, held: seq<Held>, m: seq<byte>)
    reads cache, cache.buddy, cache.buddy.mem, cache.buddy.bitmap, cache.buddy.freeList
  {
    && cache.Valid() && InHand(cache.sh, Client(cache.value, held), cache.buddy.mem[..])
    && Kept(cache.buddy.n, cache.buddy.start, m, cache.buddy.mem[..], cache.Others())
  }

  lemma ServingParts(cache: KmemCache, held: seq<Held>, m: seq<byte>)
    requires Serving(cache, held, m)
    ensures cache.Valid() && InHand(cache.sh, Client(cache.value, held), cache.buddy.mem[..])
    ensures Kept(cache.buddy.n, cache.buddy.start, m, cache.buddy.mem[..], cache.Others())
  {
  }

  lemma MakeServing(cache: KmemCache, held: seq<Held>, m: seq<byte>)
    requires cache.Valid() && InHand(cache.sh, Client(cache.value, held), cache.buddy.mem[..])
    requires Kept(cache.buddy.n, cache.buddy.start, m, cache.buddy.mem[..], cache.Others())
    ensures Serving(cache, held, m)
  {
  }

  // The destructor of an object given back by request q has run.
  ghost predicate Destroyed(sh: Shape, held: seq<Held>, q: Request, m: seq<byte>) {
    q.Put? && q.i < |held| && 16 + |q.image| <= sh.objSize ==>
      var o := held[q.i].at + 16; o + |q.image| <= |m| && m[o..o + |q.image|] == q.image
  }

  lemma NotDestroyed(sh: Shape, held: seq<Held>, q: Request, m: seq<byte>)
    requires q.Put? ==> q.i >= |held| || 16 + |q.image| > sh.objSize
    ensures Destroyed(sh, held, q, m)
  {
  }

  lemma MakeDestroyed(sh: Shape, held: seq<Held>, q: Request, m: seq<byte>)
    requires q.Put? && q.i < |held| && held[q.i].at + 16 + |q.image| <= |m|
    requires m[held[q.i].at + 16..held[q.i].at + 16 + |q.image|] == q.image
    ensures Destroyed(sh, held, q, m)
  {
  }

  // The orders of the blocks a request takes for the cache.
  ghost function WantedBy(cache: KmemCache, q: Request): seq<nat>
    reads cache
  {
    if q.Get? && |q.image| <= cache.sh.objSize then cache.Wanting() else []
  }

  lemma WantedIs(cache: KmemCache, q: Request)
    ensures WantedBy(cache, q) == if q.Get? && |q.image| <= cache.sh.objSize then cache.Wanting() else []
  {
    hide KmemCache.Wanting;
  }

  // One request. It fails only when it asks for an object, and there is neither a free object nor memory
  // for a new slab.
  method Answer(cache: KmemCache, held: seq<Held>, q: Request, ghost m: seq<byte>)
    returns (ok: bool, r: nat, after: seq<Held>)
    requires Serving(cache, held, m) && (q.Get? ==> cache.order <= cache.buddy.n)
    modifies cache, cache.buddy, cache.buddy.mem, cache.buddy.bitmap, cache.buddy.freeList
    ensures Serving(cache, after, m) && cache.Others() == old(cache.Others())
    ensures ok ==> Answered(cache.sh, Client(old(cache.value), held), q, r, Client(cache.value, after))
    ensures ok ==> Destroyed(cache.sh, held, q, cache.buddy.mem[..])
    ensures ok && !q.Trim? ==>
              Supplied(old(cache.buddy.live), old(cache.buddy.lists), old(WantedBy(cache, q)), cache.buddy.live,
                       cache.buddy.lists)
    ensures !ok ==> cache.buddy.live == old(cache.buddy.live) && cache.buddy.lists == old(cache.buddy.lists)
    ensures !ok ==> q.Get? && |q.image| <= cache.sh.objSize && cache.Valid() && !cache.CanServe()
    ensures !ok ==> cache.value == old(cache.value) && after == held && r == 0
  {
    hide *;
    ServingParts(cache, held, m);
    WantedIs(cache, q);
    NothingSupplied(cache.buddy.live, cache.buddy.lists);
    ghost var t, c := cache.buddy.mem[..], Client(cache.value, held);
    ok, r, after := true, 0, held;
    match q {
      case Get(image) =>
        if |image| <= cache.sh.objSize {
          ghost var v, a;
          r, a, v := cache.Alloc(image);
          if r == 0 {
            ok := false;
            InHandKept(cache.sh, c, t, cache.value, cache.buddy.mem[..]);
          } else {
            after := [Held(r, image)] + held;
            ImageWritten(cache.sh, cache.buddy.mem[..], r, image);
            InHandGot(cache.sh, c, t, cache.value, cache.buddy.mem[..], Held(r, image));
            AnsweredGet(cache.sh, c, image, v, a, r, cache.value);
          }
          KeptThen(cache.buddy.n, cache.buddy.start, m, t, cache.buddy.mem[..], cache.Others());
        } else {
          AnsweredNot(cache.sh, c, q);
        }
      case Put(i, image) =>
        if i < |held| && 16 + |image| <= cache.sh.objSize {
          InHandLive(cache.sh, c, t, i);
          KnownLive(cache, held[i].at);
          ghost var a := cache.Free(held[i].at, image);
          after := held[..i] + held[i + 1..];
          MakeDestroyed(cache.sh, held, q, cache.buddy.mem[..]);
          InHandPut(cache.sh, c, t, cache.value, cache.buddy.mem[..], i);
          AnsweredPut(cache.sh, c, i, image, a, cache.value);
          KeptThen(cache.buddy.n, cache.buddy.start, m, t, cache.buddy.mem[..], cache.Others());
        } else {
          AnsweredNot(cache.sh, c, q);
          NotDestroyed(cache.sh, held, q, cache.buddy.mem[..]);
        }
      case Use(i, image) =>
        if i < |held| && |image| <= cache.sh.objSize {
          InHandLive(cache.sh, c, t, i);
          cache.Overwrite(held[i].at, image);
          ghost var h := Held(held[i].at, image);
          after := held[i := Held(held[i].at, image)];
          ImageWritten(cache.sh, cache.buddy.mem[..], h.at, image);
          InHandUsed(cache.sh, c, t, cache.buddy.mem[..], i, h);
          AnsweredUse(cache.sh, c, i, image);
          KeptThen(cache.buddy.n, cache.buddy.start, m, t, cache.buddy.mem[..], cache.Others());
        } else {
          AnsweredNot(cache.sh, c, q);
        }
      case Trim =>
        r := cache.Shrink();
        InHandKept(cache.sh, c, t, cache.value, cache.buddy.mem[..]);
        AnsweredTrim(cache.sh, c);
        KeptThen(cache.buddy.n, cache.buddy.start, m, t, cache.buddy.mem[..], cache.Others());
    }
    if !q.Put? {
      NotDestroyed(cache.sh, held, q, cache.buddy.mem[..]);
    }
    MakeServing(cache, after, m);
  }

  // A live object lies in a slab in use.
  lemma KnownLive(cache: KmemCache, o: nat)
    requires cache.Valid() && Live(cache.sh, cache.value, o)
    ensures !cache.Unknown(o)
  {
    hide *;
    if cache.Unknown(o) {
      cache.UnknownNotLive(o);
    }
  }

  lemma ImageWritten(sh: Shape, m: seq<byte>, o: nat, image: seq<byte>)
    requires |image| <= sh.objSize && o + |image| <= |m| && m[o..o + |image|] == image
    ensures ImageAt(sh, m, Held(o, image))
  {
  }

  lemma AnsweredGet(sh: Shape, c: Client, image: seq<byte>, v: Cache, a: nat, r: nat, value: Cache)
    requires |image| <= sh.objSize && r != 0 && Served(sh, c.value, v, a, r, value)
    ensures Answered(sh, c, Get(image), r, Client(value, [Held(r, image)] + c.held))
  {
    hide Served;
  }

  lemma AnsweredPut(sh: Shape, c: Client, i: nat, image: seq<byte>, a: nat, value: Cache)
    requires i < |c.held| && 16 + |image| <= sh.objSize && Returned(sh, c.value, a, c.held[i].at, value)
    ensures Answered(sh, c, Put(i, image), 0, Client(value, c.held[..i] + c.held[i + 1..]))
  {
    hide Returned;
  }

  lemma AnsweredUse(sh: Shape, c: Client, i: nat, image: seq<byte>)
    requires i < |c.held| && |image| <= sh.objSize
    ensures Answered(sh, c, Use(i, image), 0, Client(c.value, c.held[i := Held(c.held[i].at, image)]))
  {
  }

  lemma AnsweredTrim(sh: Shape, c: Client)
    ensures Answered(sh, c, Trim, |c.value.empty| * sh.slabSize, Client(Shrunk(c.value), c.held))
  {
  }

  // A request the client has no right to make.
  lemma AnsweredNot(sh: Shape, c: Client, q: Request)
    requires match q
             case Get(image) => |image| > sh.objSize
             case Put(i, image) => i >= |c.held| || 16 + |image| > sh.objSize
             case Use(i, image) => i >= |c.held| || |image| > sh.objSize
             case Trim => false
    ensures Answered(sh, c, q, 0, c)
  {
  }

  // The requests of a client of a fresh cache, up to the first that finds no memory.
  method Serve(cache: KmemCache, requests: seq<Request>, ghost m: seq<byte>)
    returns (answers: seq<nat>, held: seq<Held>)
    requires Serving(cache, [], m) && (cache.order <= cache.buddy.n || forall q :: q in requests ==> !q.Get?)
    modifies cache, cache.buddy, cache.buddy.mem, cache.buddy.bitmap, cache.buddy.freeList
    ensures Serving(cache, held, m) && cache.Others() == old(cache.Others()) && |answers| <= |requests|
    ensures Session(cache.sh, Client(old(cache.value), []), requests[..|answers|], answers, Client(cache.value, held))
    ensures |answers| < |requests| ==>
              var q := requests[|answers|]; q.Get? && |q.image| <= cache.sh.objSize && cache.order <= cache.buddy.n
    ensures |answers| < |requests| ==> cache.Valid() && !cache.CanServe()
  {
    hide *;
    answers, held := [], [];
    ghost var c0 := Client(cache.value, []);
    SessionStarts(cache.sh, c0);
    while |answers| < |requests|
      invariant Serving(cache, held, m) && cache.Others() == old(cache.Others()) && |answers| <= |requests|
      invariant Session(cache.sh, c0, requests[..|answers|], answers, Client(cache.value, held))
      decreases |requests| - |answers|
    {
      var q := requests[|answers|];
      assert q in requests;
      ghost var c := Client(cache.value, held);
      var ok, r, after := Answer(cache, held, q, m);
      if !ok {
        return;
      }
      SessionGoesOn(cache.sh, c0, requests[..|answers|], answers, c, q, r, Client(cache.value, after));
      assert requests[..|answers|] + [q] == requests[..|answers| + 1];
      answers, held := answers + [r], after;
    }
    assert requests[..|answers|] == requests;
  }

  // The bitmap and the free lists of two states of the buddy allocator are the same, up to the order of
  // the blocks within one list.
  ghost predicate SameSupply(n: nat, bits: seq<bv8>, ls: Lists, bits': seq<bv8>, ls': Lists) {
    bits == bits' && |ls| == |ls'| == n + 1 && forall k :: 0 <= k <= n ==> multiset(ls[k]) == multiset(ls'[k])
  }

  lemma SupplyRestored(n: nat, live: set<nat>, bits: seq<bv8>, ls: Lists, bits': seq<bv8>, ls': Lists)
    requires Canonical(n, live, ls) && Canonical(n, live, ls') && |bits| == |bits'|
    requires BitsShow(bits, live) && BitsShow(bits', live)
    ensures SameSupply(n, bits, ls, bits', ls')
  {
    BitsUnique(bits, bits', live);
    CanonicalUnique(n, live, ls, ls');
  }

  // The state a run of requests stops in: it asks for an object and there is neither a free one nor memory
  // for a slab; the live blocks are those of others and those of the cache, at home.
  ghost predicate Stuck(p: Place, size: nat, requests: seq<Request>, at: nat, c: Client, home: nat,
                        live: set<nat>, live': set<nat>, ls': Lists) {
    && at < |requests| && requests[at].Get? && |requests[at].image| <= ObjectSize(size)
    && c.value.partial == [] && c.value.empty == []
    && SlabOrder(size) < |ls'| && !CanTakeTwo(ls', SlabOrder(size))
    && live !! Blocks(p, home, SlabOrder(size), c.value.slabs) &&
       live' == live + Blocks(p, home, SlabOrder(size), c.value.slabs)
  }

  lemma MakeStuck(cache: KmemCache, size: nat, requests: seq<Request>, at: nat, held: seq<Held>, live: set<nat>)
    requires cache.Valid() && cache.order == SlabOrder(size) <= cache.buddy.n && !cache.CanServe() &&
             cache.Others() == live
    requires at < |requests| && requests[at].Get? && |requests[at].image| <= ObjectSize(size)
    ensures Stuck(Place(cache.buddy.n, cache.buddy.start), size, requests, at, Client(cache.value, held), cache.home,
                  live, cache.buddy.live, cache.buddy.lists)
  {
    hide *;
    cache.ServeParts();
    cache.Names();
    cache.HoldingParts();
    StockedParts(cache.At(), cache.buddy.mem[..], cache.heads, cache.value);
    BlocksLive(Place(cache.buddy.n, cache.buddy.start), cache.buddy.live, cache.home, cache.order, cache.sh,
               cache.slabs);
    OthersIs(cache.At(), cache.slabs);
    StuckIs(Place(cache.buddy.n, cache.buddy.start), size, requests, at, Client(cache.value, held), cache.home,
            live, cache.buddy.live, cache.buddy.lists);
  }

  lemma StuckIs(p: Place, size: nat, requests: seq<Request>, at: nat, c: Client, home: nat,
                live: set<nat>, live': set<nat>, ls': Lists)
    requires at < |requests| && requests[at].Get? && |requests[at].image| <= ObjectSize(size)
    requires c.value.partial == [] && c.value.empty == []
    requires SlabOrder(size) < |ls'| && !CanTakeTwo(ls', SlabOrder(size))
    requires live !! Blocks(p, home, SlabOrder(size), c.value.slabs)
    requires live' == live + Blocks(p, home, SlabOrder(size), c.value.slabs)
    ensures Stuck(p, size, requests, at, c, home, live, live', ls')
  {
  }

  // The life of a cache for objects of the given size: created, asked for whatever requests say, destroyed.
  // It is created exactly when there is a page for it. answers are what the requests returned and c is what
  // they made of the client and its cache. When every request could be served, in the end the bitmap and
  // the free lists are as before; no request fails while there is a free object or memory for a slab. Every
  // byte of the blocks that were live before is as it was.
  method Lifetime(buddy: BuddyAllocator, size: nat, requests: seq<Request>)
    returns (created: bool, answers: seq<nat>, ghost c: Client, ghost home: nat)
    requires buddy.Valid() && (8 * ObjectSize(size) <= 4096 * Pow2(buddy.n) || forall q :: q in requests ==> !q.Get?)
    modifies buddy, buddy.mem, buddy.bitmap, buddy.freeList
    ensures buddy.Valid() && Kept(buddy.n, buddy.start, old(buddy.mem[..]), buddy.mem[..], old(buddy.live))
    ensures |old(buddy.lists)| > 0 && (created <==> BuddySpec.Alloc(old(buddy.lists), 0).Some?)
    ensures !created ==> buddy.live == old(buddy.live) && buddy.lists == old(buddy.lists)
    ensures created ==>
              && |answers| <= |requests|
              && Session(ShapeFor(size), Client(NO_SLABS, []), requests[..|answers|], answers, c)
    ensures created && |answers| == |requests| ==>
              && buddy.live == old(buddy.live)
              && SameSupply(buddy.n, old(buddy.bitmap[..]), old(buddy.lists), buddy.bitmap[..], buddy.lists)
    ensures created && |answers| < |requests| ==>
              && InHand(ShapeFor(size), c, buddy.mem[..])
              && Stuck(Place(buddy.n, buddy.start), size, requests, |answers|, c, home, old(buddy.live), buddy.live,
                 buddy.lists)
  {
    hide *;
    ghost var m, bits, lists, live := buddy.mem[..], buddy.bitmap[..], buddy.lists, buddy.live;
    buddy.ValidParts();
    var cache := CreateCache(buddy, size);
    created, answers, c, home := cache != null, [], Client(NO_SLABS, []), 0;
    if cache == null {
      return;
    }
    home := cache.home;
    SlabOrderFits(size, buddy.n);
    NothingInHand(cache.sh, buddy.mem[..]);
    MakeServing(cache, [], m);
    var held;
    answers, held := Serve(cache, requests, m);
    c := Client(cache.value, held);
    ServingParts(cache, held, m);
    cache.HoldingParts();
    if |answers| < |requests| {
      ShapeIs(size);
      MakeStuck(cache, size, requests, |answers|, held, live);
      return;
    }
    ghost var t := buddy.mem[..];
    cache.Destroy();
    KeptThen(buddy.n, buddy.start, m, t, buddy.mem[..], live);
    buddy.ValidParts();
    SupplyRestored(buddy.n, live, bits, lists, buddy.bitmap[..], buddy.lists);
  }

  lemma ShapeIs(size: nat)
    ensures ShapeFor(size).objSize == ObjectSize(size)
  {
  }
}
