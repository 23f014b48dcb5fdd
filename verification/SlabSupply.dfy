// The slab allocator's dealings with the buddy allocator: blocks taken and given back, and the linking of
// the objects of a new slab.
module SlabSupply {
  import opened Powers
  import opened BuddyTree
  import opened BuddySteps
  import opened BuddyBlocks
  import opened Sequences
  import opened BuddySpec
  import opened BuddyTheorems
  import opened BuddyMemory
  import opened BuddyBits
  import opened Buddy
  import opened DList
  import opened SlabSpec
  import opened SlabLinking
  import opened SlabBlocks

  lemma QuotientFits(a: nat, b: nat)
    requires b > 0
    ensures a / b >= 0 && (a / b) * b <= a
  {
    DivUnique(a, b, Div(a, b));
  }

  // The size of the objects of a cache for objects of the given size: at least their two link words.
  function ObjectSize(size: nat): nat {
    if size > 16 then size else 16
  }

  // The order of the smallest block that holds eight objects.
  function SlabOrder(size: nat): nat {
    OrderFor(8 * ObjectSize(size))
  }

  function ShapeFor(size: nat): Shape {
    var slabSize := 4096 * Pow2(SlabOrder(size));
    Shape(ObjectSize(size), slabSize, slabSize / ObjectSize(size))
  }

  lemma SlabOrderUnique(size: nat, k: nat)
    requires 8 * ObjectSize(size) <= 4096 * Pow2(k) && (k == 0 || 4096 * Pow2(k - 1) < 8 * ObjectSize(size))
    ensures SlabOrder(size) == k
  {
    CeilLog2Unique(PagesFor(8 * ObjectSize(size)), k);
  }

  // Shape sh and order k are right for objects of the given size: room for two link words at least, the
  // smallest block that holds eight objects, and as many objects as fit in it.
  ghost predicate Fitting(size: nat, sh: Shape, k: nat) {
    && sh.objSize == (if size > 16 then size else 16) && sh.slabSize == 4096 * Pow2(k)
    && sh.maxObjects * sh.objSize <= sh.slabSize < (sh.maxObjects + 1) * sh.objSize
    && 8 * sh.objSize <= sh.slabSize && (k > 0 ==> 4096 * Pow2(k - 1) < 8 * sh.objSize)
  }

  // ShapeFor and SlabOrder are the only ones that are right.
  lemma FittingExactly(size: nat, sh: Shape, k: nat)
    ensures Fitting(size, sh, k) <==> sh == ShapeFor(size) && k == SlabOrder(size)
  {
    var o, j := ObjectSize(size), SlabOrder(size);
    SlabOrderLeast(size);
    QuotientIs(4096 * Pow2(j), o, ShapeFor(size).maxObjects);
    if Fitting(size, sh, k) {
      SlabOrderUnique(size, k);
      QuotientIs(sh.slabSize, o, sh.maxObjects);
    }
  }

  lemma QuotientIs(a: nat, b: nat, q: nat)
    requires b > 0
    ensures q == a / b <==> q * b <= a < (q + 1) * b
  {
    DivUnique(a, b, q);
    assert (q + 1) * b == q * b + b;
  }

  lemma SlabOrderLeast(size: nat)
    ensures var o, k := ObjectSize(size), SlabOrder(size);
            8 * o <= 4096 * Pow2(k) && (k > 0 ==> 4096 * Pow2(k - 1) < 8 * o)
  {
    var o, k := 8 * ObjectSize(size), SlabOrder(size);
    PagesHold(o, Pow2(k));
    if k > 0 {
      PagesHold(o, Pow2(k - 1));
    }
  }

  lemma PagesHold(size: nat, pages: nat)
    ensures PagesFor(size) <= pages <==> size <= 4096 * pages
  {
  }

  // Eight objects fit in the heap just when its pages make up a slab.
  lemma SlabOrderFits(size: nat, n: nat)
    ensures SlabOrder(size) <= n <==> 8 * ObjectSize(size) <= 4096 * Pow2(n)
  {
    var k, o := SlabOrder(size), 8 * ObjectSize(size);
    assert o >= 1 && k == CeilLog2(PagesFor(o));
    PagesHold(o, Pow2(k));
    PagesHold(o, Pow2(n));
    if k > 0 {
      PagesHold(o, Pow2(k - 1));
    }
    hide *;
    if k <= n {
      Pow2Monotonic(k, n);
    } else {
      Pow2Monotonic(n, k - 1);
    }
  }

  lemma EightFit(a: nat, b: nat)
    requires b > 0 && a / b >= 8
    ensures 8 * b <= a
  {
    DivUnique(a, b, Div(a, b));
    assert 8 * b <= (a / b) * b;
  }

  lemma AtMost(a: nat, b: nat, k: nat)
    requires b > 0 && a <= k * b
    ensures a / b <= k
  {
    DivBelow(a, b, k + 1);
  }

  lemma FewerThanEight(a: nat, b: nat)
    requires b > 0 && a / b < 8
    ensures a < 8 * b
  {
    DivUnique(a, b, Div(a, b));
    assert (a / b + 1) * b <= 8 * b;
  }

  // buddy_alloc, seen from a caller who asks for a block of order k.
  method TakeBlock(buddy: BuddyAllocator, size: nat, ghost k: nat) returns (a: nat)
    requires buddy.Valid() && 1 <= size && OrderFor(size) == k <= buddy.n
    modifies buddy, buddy.mem, buddy.bitmap, buddy.freeList
    ensures buddy.Valid() && Kept(buddy.n, buddy.start, old(buddy.mem[..]), buddy.mem[..], buddy.live)
    ensures a == 0 <==> BuddySpec.Alloc(old(buddy.lists), k) == None
    ensures a == 0 ==> buddy.live == old(buddy.live) && buddy.lists == old(buddy.lists)
    ensures a != 0 ==>
              var p := Place(buddy.n, buddy.start);
              && LiveAt(p, buddy.live, a, k) && BlockAt(p, a, k) !in old(buddy.live)
              && buddy.live == old(buddy.live) + {BlockAt(p, a, k)}
              && a + 4096 * Pow2(k) <= buddy.mem.Length
              && BuddySpec.Alloc(old(buddy.lists), k) == Some((buddy.lists, BlockAt(p, a, k)))
  {
    SizeFits(size, buddy.n);
    ghost var y;
    a, y := buddy.Alloc(size);
    if a != 0 {
      AllocOk(buddy.n, old(buddy.live), old(buddy.lists), k);
      LiveBlockAt(Place(buddy.n, buddy.start), buddy.live, y);
      BlockInside(buddy.n, y);
    }
  }

  lemma SizeFits(size: nat, n: nat)
    requires 1 <= size && OrderFor(size) <= n
    ensures size <= 4096 * Pow2(n)
  {
    Pow2Monotonic(OrderFor(size), n);
  }

  // buddy_free, seen from a caller who gives back the block of order k at a.
  method GiveBlock(buddy: BuddyAllocator, a: nat, ghost k: nat)
    requires buddy.Valid() && LiveAt(Place(buddy.n, buddy.start), buddy.live, a, k)
    modifies buddy, buddy.mem, buddy.bitmap, buddy.freeList
    ensures buddy.Valid() && Kept(buddy.n, buddy.start, old(buddy.mem[..]), buddy.mem[..], buddy.live)
    ensures var x := BlockAt(Place(buddy.n, buddy.start), a, k);
            && buddy.live == old(buddy.live) - {x}
            && Depth(x) == buddy.n - k && buddy.lists == Coalesce(buddy.live, old(buddy.lists), x, k)
  {
    ghost var x := BlockAt(Place(buddy.n, buddy.start), a, k);
    buddy.AddressAccepted(x);
    buddy.Free(a, x);
  }

  // Both blocks of a new slab can be had.
  ghost predicate CanTakeTwo(lists: Lists, k: nat)
    requires k < |lists|
  {
    match BuddySpec.Alloc(lists, 0)
    case None => false
    case Some((after, x)) => BuddySpec.Alloc(after, k).Some?
  }

  // What was taken after the blocks xs, and these before it.
  function Before(xs: seq<nat>, r: Option<(Lists, seq<nat>)>): Option<(Lists, seq<nat>)> {
    match r
    case None => None
    case Some(taken) => Some((taken.0, xs + taken.1))
  }

  // Blocks of the given orders are taken one after the other: the lists left, and the blocks.
  function Taking(lists: Lists, orders: seq<nat>): Option<(Lists, seq<nat>)>
    decreases |orders|
  {
    if orders == [] then Some((lists, []))
    else if orders[0] >= |lists| then None
    else
      match BuddySpec.Alloc(lists, orders[0])
      case None => None
      case Some(got) => Before([got.1], Taking(got.0, orders[1..]))
  }

  // Just blocks of these orders came live, those the buddy allocator finds for them.
  ghost predicate Supplied(live: set<nat>, lists: Lists, orders: seq<nat>, live': set<nat>, lists': Lists) {
    match Taking(lists, orders)
    case None => false
    case Some(taken) => lists' == taken.0 && live' == live + set x | x in taken.1
  }

  lemma NothingSupplied(live: set<nat>, lists: Lists)
    ensures Supplied(live, lists, [], live, lists)
  {
  }

  lemma OneTaken(lists: Lists, k: nat, after: Lists, x: nat)
    requires k < |lists| && BuddySpec.Alloc(lists, k) == Some((after, x))
    ensures Taking(lists, [k]) == Some((after, [x]))
  {
    hide BuddySpec.Alloc;
    assert [k][1..] == [] && Taking(after, []) == Some((after, []));
    assert [x] + [] == [x];
  }

  // Taking one block and then the rest.
  lemma TakingStep(lists: Lists, k: nat, ks: seq<nat>)
    requires k < |lists|
    ensures BuddySpec.Alloc(lists, k) == None ==> Taking(lists, [k] + ks) == None
    ensures forall after, x :: BuddySpec.Alloc(lists, k) == Some((after, x)) ==>
              Taking(lists, [k] + ks) == Before([x], Taking(after, ks))
  {
    hide BuddySpec.Alloc;
    assert ([k] + ks)[1..] == ks;
  }

  lemma BeforeThen(xs: seq<nat>, ys: seq<nat>, r: Option<(Lists, seq<nat>)>)
    ensures Before(xs, Before(ys, r)) == Before(xs + ys, r)
  {
    if r.Some? {
      assert xs + (ys + r.value.1) == xs + ys + r.value.1;
    }
  }

  lemma {:induction false} TakingThen(lists: Lists, ks: seq<nat>, after: Lists, xs: seq<nat>, js: seq<nat>)
    requires Taking(lists, ks) == Some((after, xs))
    ensures Taking(lists, ks + js) == Before(xs, Taking(after, js))
    decreases |ks|
  {
    if ks == [] {
      assert ks + js == js && forall ys: seq<nat> :: xs + ys == ys;
    } else {
      var k, more := ks[0], ks[1..];
      assert k < |lists|;
      hide Taking, BuddySpec.Alloc;
      assert ks == [k] + more && ks + js == [k] + (more + js);
      TakingStep(lists, k, more);
      TakingStep(lists, k, more + js);
      var (l1, x) := BuddySpec.Alloc(lists, k).value;
      var (end, rest) := Taking(l1, more).value;
      TakingThen(l1, more, after, rest, js);
      BeforeThen([x], rest, Taking(after, js));
    }
  }

  // What one supply and then another came to.
  lemma SuppliedThen(live: set<nat>, lists: Lists, ks: seq<nat>, live1: set<nat>, lists1: Lists, js: seq<nat>,
                     live2: set<nat>, lists2: Lists)
    requires Supplied(live, lists, ks, live1, lists1) && Supplied(live1, lists1, js, live2, lists2)
    ensures Supplied(live, lists, ks + js, live2, lists2)
  {
    hide Taking;
    var (_, xs) := Taking(lists, ks).value;
    var (_, ys) := Taking(lists1, js).value;
    TakingThen(lists, ks, lists1, xs, js);
    assert (set x | x in xs + ys) == (set x | x in xs) + (set x | x in ys);
  }

  lemma TwoSupplied(live: set<nat>, lists: Lists, k: nat, x: nat, y: nat, live': set<nat>, lists': Lists)
    requires Taking(lists, [0, k]) == Some((lists', [x, y])) && live' == live + {x, y}
    ensures Supplied(live, lists, [0, k], live', lists')
  {
    hide Taking;
    assert (set z | z in [x, y]) == {x, y};
  }

  lemma OneSupplied(live: set<nat>, lists: Lists, k: nat, x: nat, live': set<nat>, lists': Lists)
    requires k < |lists| && BuddySpec.Alloc(lists, k) == Some((lists', x)) && live' == live + {x}
    ensures Supplied(live, lists, [k], live', lists')
  {
    OneTaken(lists, k, lists', x);
    hide Taking, BuddySpec.Alloc;
    assert (set z | z in [x]) == {x};
  }

  // The blocks taken have the orders asked for, were live nowhere before, and are different ones.
  lemma {:induction false} TakingBlocks(n: nat, live: set<nat>, lists: Lists, orders: seq<nat>, after: Lists,
                                        xs: seq<nat>)
    requires Canonical(n, live, lists) && Taking(lists, orders) == Some((after, xs))
    ensures |xs| == |orders| && NoDup(xs) && Canonical(n, live + (set x | x in xs), after)
    ensures forall i :: 0 <= i < |xs| ==> orders[i] <= n && Depth(xs[i]) == n - orders[i] && xs[i] !in live
    decreases |orders|
  {
    hide *;
    if orders == [] {
      NoneTaken(lists);
      NoneTwice();
      assert live + (set x | x in xs) == live;
    } else {
      var l1, x, ys := FirstTaken(lists, orders, after, xs);
      OneBlock(n, live, lists, orders[0], l1, x);
      TakingBlocks(n, live + {x}, l1, orders[1..], after, ys);
      SetOfMore(live, x, ys);
      OneMoreBlock(n, live, orders, x, ys);
    }
  }

  lemma SetOfMore(live: set<nat>, x: nat, ys: seq<nat>)
    ensures live + {x} + (set y | y in ys) == live + (set y | y in [x] + ys)
  {
  }

  lemma OneMoreBlock(n: nat, live: set<nat>, orders: seq<nat>, x: nat, ys: seq<nat>)
    requires |orders| == |ys| + 1 && orders[0] <= n && Depth(x) == n - orders[0] && x !in live && NoDup(ys)
    requires forall i :: 0 <= i < |ys| ==>
               orders[1..][i] <= n && Depth(ys[i]) == n - orders[1..][i] && ys[i] !in live + {x}
    ensures NoDup([x] + ys)
    ensures forall i :: 0 <= i < |[x] + ys| ==>
              orders[i] <= n && Depth(([x] + ys)[i]) == n - orders[i] && ([x] + ys)[i] !in live
  {
    hide Depth;
    assert x !in ys;
    PushMember(ys, x);
    hide NoDup;
    forall i | 0 <= i < |[x] + ys|
      ensures orders[i] <= n && Depth(([x] + ys)[i]) == n - orders[i] && ([x] + ys)[i] !in live
    {
      if i > 0 {
        assert orders[1..][i - 1] == orders[i] && ys[i - 1] == ([x] + ys)[i];
      }
    }
  }

  lemma NoneTaken(lists: Lists)
    ensures Taking(lists, []) == Some((lists, []))
  {
  }

  lemma NoneTwice()
    ensures NoDup([])
  {
  }

  lemma FirstTaken(lists: Lists, orders: seq<nat>, after: Lists, xs: seq<nat>) returns (l1: Lists, x: nat, ys: seq<nat>)
    requires orders != [] && Taking(lists, orders) == Some((after, xs))
    ensures orders[0] < |lists| && BuddySpec.Alloc(lists, orders[0]) == Some((l1, x))
    ensures Taking(l1, orders[1..]) == Some((after, ys)) && xs == [x] + ys
  {
    hide BuddySpec.Alloc, Before;
    l1, x := BuddySpec.Alloc(lists, orders[0]).value.0, BuddySpec.Alloc(lists, orders[0]).value.1;
    BeforeIs([x], Taking(l1, orders[1..]));
    ys := Taking(l1, orders[1..]).value.1;
  }

  lemma OneBlock(n: nat, live: set<nat>, lists: Lists, k: nat, after: Lists, x: nat)
    requires Canonical(n, live, lists) && k < |lists| && BuddySpec.Alloc(lists, k) == Some((after, x))
    ensures k <= n && Depth(x) == n - k && x !in live && Canonical(n, live + {x}, after)
  {
    assert |lists| == n + 1;
    hide Canonical, BuddySpec.Alloc;
    AllocOk(n, live, lists, k);
  }

  lemma BeforeIs(xs: seq<nat>, r: Option<(Lists, seq<nat>)>)
    ensures Before(xs, r) == match r case None => None case Some(taken) => Some((taken.0, xs + taken.1))
  {
  }

  // The two blocks of a slab.
  lemma TwoTaken(lists: Lists, k: nat)
    requires k < |lists|
    ensures CanTakeTwo(lists, k) <==> Taking(lists, [0, k]).Some?
  {
    hide BuddySpec.Alloc;
    match BuddySpec.Alloc(lists, 0)
    case None =>
    case Some((after, x)) =>
      OneTaken(lists, 0, after, x);
      TakingThen(lists, [0], after, [x], [k]);
      assert [0] + [k] == [0, k] && [k][1..] == [];
      SameCount(lists, 0);
  }

  lemma SameCount(lists: Lists, k: nat)
    requires k < |lists| && BuddySpec.Alloc(lists, k).Some?
    ensures |BuddySpec.Alloc(lists, k).value.0| == |lists|
  {
  }

  // The two allocations of slabInit; when the second fails the first is undone without a trace.
  method TakeTwo(buddy: BuddyAllocator, size: nat, ghost k: nat) returns (a: nat, b: nat)
    requires buddy.Valid() && 1 <= size && OrderFor(size) == k <= buddy.n && OrderFor(40) == 0
    modifies buddy, buddy.mem, buddy.bitmap, buddy.freeList
    ensures buddy.Valid() && Kept(buddy.n, buddy.start, old(buddy.mem[..]), buddy.mem[..], old(buddy.live))
    ensures a != 0 <==> old(CanTakeTwo(buddy.lists, k))
    ensures a == 0 ==> buddy.live == old(buddy.live) && buddy.lists == old(buddy.lists)
    ensures a != 0 ==>
              var p := Place(buddy.n, buddy.start);
              && b != 0 && LiveAt(p, buddy.live, a, 0) && LiveAt(p, buddy.live, b, k)
              && BlockAt(p, a, 0) !in old(buddy.live) && BlockAt(p, b, k) !in old(buddy.live) &&
                 BlockAt(p, a, 0) != BlockAt(p, b, k)
              && buddy.live == old(buddy.live) + {BlockAt(p, a, 0), BlockAt(p, b, k)}
              && a + 4096 <= buddy.mem.Length && b + 4096 * Pow2(k) <= buddy.mem.Length
              && Taking(old(buddy.lists), [0, k]) == Some((buddy.lists, [BlockAt(p, a, 0), BlockAt(p, b, k)]))
  {
    hide Kept, Canonical, BuddySpec.Alloc, BlockAt, Taking;
    ghost var n, start, live, lists := buddy.n, buddy.start, buddy.live, buddy.lists;
    ghost var m0 := buddy.mem[..];
    a := TakeBlock(buddy, 40, 0);
    b := 0;
    if a == 0 {
      return;
    }
    ghost var m1, live1 := buddy.mem[..], buddy.live;
    ghost var x, lists1 := BlockAt(Place(n, start), a, 0), buddy.lists;
    OneTaken(lists, 0, lists1, x);
    b := TakeBlock(buddy, size, k);
    ghost var m2 := buddy.mem[..];
    if b == 0 {
      KeptThen(n, start, m0, m1, m2, live1);
      GiveBlock(buddy, a, 0);
      assert buddy.live == live;
      AllocFreeIdentity(n, live, lists, 0);
      KeptSubset(n, start, m0, m2, live1, live);
      KeptThen(n, start, m0, m2, buddy.mem[..], live);
      a := 0;
      return;
    }
    OneTaken(lists1, k, buddy.lists, BlockAt(Place(n, start), b, k));
    TakingThen(lists, [0], lists1, [x], [k]);
    assert [0] + [k] == [0, k] && [x] + [BlockAt(Place(n, start), b, k)] == [x, BlockAt(Place(n, start), b, k)];
    assert Pow2(0) == 1;
    KeptSubset(n, start, m0, m1, live1, live);
    KeptSubset(n, start, m1, m2, buddy.live, live);
    KeptThen(n, start, m0, m1, m2, live);
  }

  // The linking loop of slabInit in a live block that is not among the others.
  method FillMemory(buddy: BuddyAllocator, memory: nat, sh: Shape, ghost order: nat, ghost others: set<nat>)
    requires buddy.Valid() && ShapeOk(sh) && sh.slabSize == 4096 * Pow2(order) &&
             memory + sh.slabSize <= buddy.mem.Length
    requires LiveAt(Place(buddy.n, buddy.start), buddy.live, memory, order) && others <= buddy.live && memory != 0
    requires BlockAt(Place(buddy.n, buddy.start), memory, order) !in others
    modifies buddy.mem
    ensures buddy.Valid() && Kept(buddy.n, buddy.start, old(buddy.mem[..]), buddy.mem[..], others)
    ensures Linked(buddy.mem[..], 0, memory, Slots(sh, memory))
  {
    ghost var m, p := buddy.mem[..], Place(buddy.n, buddy.start);
    assert buddy.ValidWith(m);
    LiveSeparate(buddy);
    hide Linked, Canonical, Threaded, BitsShow, Kept, LiveAt, Owned, Separate, ShapeOk;
    LinkSlots(buddy.mem, memory, sh.objSize, sh.maxObjects, sh);
    BlockWriteOwned(p, m, buddy.mem[..], buddy.live, memory, order);
    buddy.ValidAfterOwnedWrites(m);
    BlockWriteKept(p, m, buddy.mem[..], buddy.live, others, memory, order);
  }

  lemma LiveSeparate(buddy: BuddyAllocator)
    requires buddy.Valid()
    ensures Separate(buddy.live)
  {
  }

  lemma StillValidWith(buddy: BuddyAllocator)
    requires buddy.Valid()
    ensures buddy.ValidWith(buddy.mem[..])
    ensures (buddy.bitmap as object) != (buddy.mem as object) && (buddy.freeList as object) != (buddy.mem as object)
  {
  }

  lemma SizeOfSlab(sh: Shape, order: nat)
    requires sh.slabSize == 4096 * Pow2(order)
    ensures OrderFor(40) == 0 && sh.slabSize >= 1 && OrderFor(sh.slabSize) == order
  {
    CeilLog2Unique(1, 0);
    assert PagesFor(sh.slabSize) == Pow2(order);
    CeilLog2Unique(Pow2(order), order);
  }

  // The memory and the descriptor of a slab are freed, in this order.
  method GivePair(buddy: BuddyAllocator, a: nat, memory: nat, ghost k: nat)
    requires buddy.Valid() && LiveAt(Place(buddy.n, buddy.start), buddy.live, memory, k)
    requires LiveAt(Place(buddy.n, buddy.start), buddy.live - {BlockAt(Place(buddy.n, buddy.start), memory, k)}, a, 0)
    modifies buddy, buddy.mem, buddy.bitmap, buddy.freeList
    ensures buddy.Valid() && Kept(buddy.n, buddy.start, old(buddy.mem[..]), buddy.mem[..], buddy.live)
    ensures var p := Place(buddy.n, buddy.start);
            buddy.live == old(buddy.live) - {BlockAt(p, a, 0), BlockAt(p, memory, k)}
  {
    hide *;
    ghost var m := buddy.mem[..];
    GiveBlock(buddy, memory, k);
    ghost var t, live := buddy.mem[..], buddy.live;
    GiveBlock(buddy, a, 0);
    KeptSubset(buddy.n, buddy.start, m, t, live, buddy.live);
    KeptThen(buddy.n, buddy.start, m, t, buddy.mem[..], buddy.live);
  }
}
