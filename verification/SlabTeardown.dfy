// Giving slabs back to the buddy allocator, one at a time when a cache shrinks and all of them when it
// is destroyed.
module SlabTeardown {
  import opened Powers
  import opened BuddyTree
  import opened BuddySteps
  import opened Sequences
  import opened BuddyMemory
  import opened Memory64
  import opened DList
  import opened SlabSpec
  import opened SlabMemory
  import opened SlabBlocks
  import opened SlabRecords
  import opened SlabFrames
  import opened SlabSteps
  import opened SlabLive
  import opened SlabMoves

  // The cache without slab a.
  function Dropped(c: Cache, a: nat): Cache {
    c.(slabs := c.slabs - {a}, free := c.free - {a})
  }

  // The two blocks of slab a.
  function SlabPair(s: Site, a: nat, info: SlabInfo): set<nat> {
    {BlockAt(s.p, a, 0), BlockAt(s.p, info.memory, s.order)}
  }

  // ----- the blocks that stay

  lemma SameBlock(p: Place, live: set<nat>, a: nat, k: nat, b: nat, j: nat)
    requires LiveAt(p, live, a, k) && LiveAt(p, live, b, j) && BlockAt(p, a, k) == BlockAt(p, b, j)
    ensures a == b
  {
  }

  // A block at a different address is still live once the blocks at a and b are gone.
  lemma StillLive(p: Place, live: set<nat>, x: nat, i: nat, a: nat, k: nat, b: nat, j: nat)
    requires LiveAt(p, live, x, i) && LiveAt(p, live, a, k) && LiveAt(p, live, b, j) && x != a && x != b
    ensures LiveAt(p, live - {BlockAt(p, a, k), BlockAt(p, b, j)}, x, i)
  {
    hide BlockAt, Depth, Address;
    if BlockAt(p, x, i) == BlockAt(p, a, k) {
      SameBlock(p, live, x, i, a, k);
    }
    if BlockAt(p, x, i) == BlockAt(p, b, j) {
      SameBlock(p, live, x, i, b, j);
    }
  }

  lemma OwnsParts(s: Site, slabs: map<nat, SlabInfo>, a: nat)
    requires Owns(s.p, s.live, s.home, s.order, s.sh, slabs) && a in slabs
    ensures LiveAt(s.p, s.live, s.home, 0) && LiveAt(s.p, s.live, a, 0) && LiveAt(s.p, s.live, slabs[a].memory, s.order)
    ensures Disjoint(s.home, 4096, a, 4096) && Disjoint(s.home, 4096, slabs[a].memory, s.sh.slabSize)
    ensures s.sh.slabSize == 4096 * Pow2(s.order) && s.order <= s.p.n && s.sh.slabSize > 0
  {
    assert Pow2(s.order) > 0;
  }

  // The other slabs of the cache keep their blocks.
  lemma OwnsFewer(s: Site, slabs: map<nat, SlabInfo>, a: nat, size: nat)
    requires Owns(s.p, s.live, s.home, s.order, s.sh, slabs) && Spread(s.sh, slabs, size) && a in slabs
    ensures Owns(s.p, s.live - SlabPair(s, a, slabs[a]), s.home, s.order, s.sh, slabs - {a})
  {
    hide LiveAt, BlockAt, Spread, Pow2;
    OwnsParts(s, slabs, a);
    var memory := slabs[a].memory;
    StillLive(s.p, s.live, s.home, 0, a, 0, memory, s.order);
    forall b | b in slabs - {a}
      ensures LiveAt(s.p, s.live - SlabPair(s, a, slabs[a]), b, 0)
      ensures LiveAt(s.p, s.live - SlabPair(s, a, slabs[a]), slabs[b].memory, s.order)
    {
      SpreadPair(s.sh, slabs, a, b, size);
      SpreadPair(s.sh, slabs, b, a, size);
      StillLive(s.p, s.live, b, 0, a, 0, memory, s.order);
      StillLive(s.p, s.live, slabs[b].memory, s.order, a, 0, memory, s.order);
    }
  }

  // The two blocks of a slab are different, so freeing the memory leaves the descriptor live.
  lemma PairDistinct(s: Site, slabs: map<nat, SlabInfo>, a: nat, size: nat)
    requires Owns(s.p, s.live, s.home, s.order, s.sh, slabs) && Spread(s.sh, slabs, size) && a in slabs
    ensures BlockAt(s.p, a, 0) != BlockAt(s.p, slabs[a].memory, s.order)
    ensures LiveAt(s.p, s.live, slabs[a].memory, s.order)
    ensures LiveAt(s.p, s.live - {BlockAt(s.p, slabs[a].memory, s.order)}, a, 0)
  {
    hide LiveAt, Spread, Pow2, BlockAt;
    OwnsParts(s, slabs, a);
    SpreadPair(s.sh, slabs, a, a, size);
    if BlockAt(s.p, a, 0) == BlockAt(s.p, slabs[a].memory, s.order) {
      SameBlock(s.p, s.live, a, 0, slabs[a].memory, s.order);
    }
    LiveAtFewer(s.p, s.live, a, 0, BlockAt(s.p, slabs[a].memory, s.order));
  }

  lemma LiveAtFewer(p: Place, live: set<nat>, a: nat, k: nat, x: nat)
    requires LiveAt(p, live, a, k) && x != BlockAt(p, a, k)
    ensures LiveAt(p, live - {x}, a, k)
  {
  }

  // Nobody else's blocks are touched.
  lemma DroppedOthers(s: Site, slabs: map<nat, SlabInfo>, a: nat, size: nat)
    requires Owns(s.p, s.live, s.home, s.order, s.sh, slabs) && Spread(s.sh, slabs, size) && a in slabs
    ensures OthersOf(s.(live := s.live - SlabPair(s, a, slabs[a])), slabs - {a}) == OthersOf(s, slabs)
  {
    hide LiveAt, BlockAt, Spread, Pow2, Owns, Blocks;
    OwnsFewer(s, slabs, a, size);
    OwnsParts(s, slabs, a);
    LiveAtIn(s.p, s.live, a, 0);
    LiveAtIn(s.p, s.live, slabs[a].memory, s.order);
    var fewer := s.live - SlabPair(s, a, slabs[a]);
    assert (slabs - {a})[a := slabs[a]] == slabs;
    assert s.live == fewer + {BlockAt(s.p, a, 0), BlockAt(s.p, slabs[a].memory, s.order)};
    GrownOthers(s.p, fewer, s.home, s.order, s.sh, slabs - {a}, s.live, a, slabs[a]);
  }

  lemma SeparateFewer(live: set<nat>, fewer: set<nat>)
    requires Separate(live) && fewer <= live
    ensures Separate(fewer)
  {
  }

  // ----- shrinking

  lemma RepresentsDropped(sh: Shape, m: seq<byte>, h: Heads, c: Cache, a: nat)
    requires Represents(sh, m, h, c) && a !in c.empty && a !in c.partial && a !in c.full
    ensures Represents(sh, m, h, Dropped(c, a))
  {
    RepresentsParts(sh, m, h, c);
    hide Linked, IsSlot, Spread, Represents, SlabLists;
    var c' := Dropped(c, a);
    SpreadSame(sh, c.slabs, c'.slabs, |m|);
    TidyDropped(c.slabs, c.empty, c.partial, c.full, a);
    assert c'.slabs.Keys == c'.free.Keys by {
      assert c.slabs.Keys == c.free.Keys;
    }
    MakeRepresents(sh, m, h, c');
  }

  lemma TidyDropped(slabs: map<nat, SlabInfo>, s: seq<nat>, t: seq<nat>, u: seq<nat>, a: nat)
    requires Tidy(slabs, s, t, u) && a !in s && a !in t && a !in u
    ensures Tidy(slabs - {a}, s, t, u)
  {
    hide NoneIn;
    assert forall b :: b in slabs - {a} <==> b in slabs && b != a;
  }

  // A slab on no list is given back.
  lemma SlabDropped(s: Site, m: seq<byte>, h: Heads, c: Cache, a: nat, t: seq<byte>)
    requires Loose(s, m, h, c, a)
    requires Kept(s.p.n, s.p.start, m, t, s.live - SlabPair(s, a, c.slabs[a]))
    ensures var s' := s.(live := s.live - SlabPair(s, a, c.slabs[a]));
            && Represents(s.sh, t, h, Dropped(c, a)) && Separate(s'.live)
            && Owns(s.p, s'.live, s.home, s.order, s.sh, Dropped(c, a).slabs)
            && OthersOf(s', Dropped(c, a).slabs) == OthersOf(s, c.slabs)
  {
    LooseAll(s, m, h, c, a);
    hide *;
    var s' := s.(live := s.live - SlabPair(s, a, c.slabs[a]));
    var c' := Dropped(c, a);
    DroppedIs(c, a);
    RepresentsDropped(s.sh, m, h, c, a);
    OwnsFewer(s, c.slabs, a, |m|);
    DroppedOthers(s, c.slabs, a, |m|);
    SeparateFewer(s.live, s'.live);
    BuddyKeepsCache(s.p, s.sh, m, t, s'.live, s.home, s.order, h, c');
  }

  lemma LooseAll(s: Site, m: seq<byte>, h: Heads, c: Cache, a: nat)
    requires Loose(s, m, h, c, a)
    ensures Represents(s.sh, m, h, c) && Spread(s.sh, c.slabs, |m|) && Separate(s.live)
    ensures Owns(s.p, s.live, s.home, s.order, s.sh, c.slabs)
    ensures a in c.slabs && a !in c.empty && a !in c.partial && a !in c.full
  {
  }

  lemma DroppedIs(c: Cache, a: nat)
    ensures var c' := Dropped(c, a);
            && c'.slabs == c.slabs - {a} && c'.free == c.free - {a}
            && c'.empty == c.empty && c'.partial == c.partial && c'.full == c.full
  {
  }

  // The cache whose first empty slab is gone.
  function FirstDropped(c: Cache): Cache
    requires c.empty != []
  {
    Dropped(c.(empty := c.empty[1..]), c.empty[0])
  }

  lemma FirstDroppedIs(c: Cache)
    requires c.empty != []
    ensures FirstDropped(c) == Dropped(c.(empty := c.empty[1..]), c.empty[0])
    ensures FirstDropped(c).slabs == c.slabs - {c.empty[0]} && FirstDropped(c).empty == c.empty[1..]
    ensures Shrunk(FirstDropped(c)) == Shrunk(c)
  {
  }

  lemma ShrunkEnd(c: Cache)
    requires c.empty == []
    ensures Shrunk(c) == c
  {
  }

  // The cache without its empty slabs.
  function Shrunk(c: Cache): Cache
    decreases |c.empty|
  {
    if c.empty == [] then c else Shrunk(FirstDropped(c))
  }

  lemma FirstDroppedClassified(sh: Shape, c: Cache)
    requires ShapeOk(sh) && Classified(sh, c) && c.empty != []
    ensures Classified(sh, FirstDropped(c))
    ensures c.empty[0] in c.slabs && c.slabs[c.empty[0]].objCounter == 0
    ensures c.empty[0] !in c.empty[1..] && c.empty[0] !in c.partial && c.empty[0] !in c.full
  {
    assert c.empty[0] in c.empty;
    TailMember(c.empty);
  }

  lemma DroppedCounted(sh: Shape, c: Cache)
    requires Counted(sh, c.slabs, c.free) && c.empty != []
    ensures Counted(sh, FirstDropped(c).slabs, FirstDropped(c).free)
  {
  }

  // An empty slab has no live object.
  lemma DroppedLive(s: Site, m: seq<byte>, h: Heads, c: Cache, x: nat)
    requires Stocked(s, m, h, c) && Counted(s.sh, c.slabs, c.free) && c.empty != []
    ensures Live(s.sh, FirstDropped(c), x) <==> Live(s.sh, c, x)
  {
    hide *;
    var a := c.empty[0];
    StockedParts(s, m, h, c);
    FirstDroppedClassified(s.sh, c);
    FreeNoDup(s, m, h, c, a);
    FreeAreSlots(s, m, h, c, a);
    if IsSlot(s.sh, c.slabs[a].memory, x) && x !in c.free[a] {
      NotAllFree(s.sh, c.slabs[a].memory, c.free[a], x);
    }
    CountedAt(s.sh, c, a);
    DroppedLiveElsewhere(s.sh, c, a, x);
  }

  lemma CountedAt(sh: Shape, c: Cache, a: nat)
    requires Counted(sh, c.slabs, c.free) && a in c.slabs && a in c.free
    ensures c.slabs[a].objCounter + |c.free[a]| == sh.maxObjects
  {
  }

  lemma DroppedLiveElsewhere(sh: Shape, c: Cache, a: nat, x: nat)
    requires c.empty != [] && a == c.empty[0] && a in c.slabs && a in c.free
    requires IsSlot(sh, c.slabs[a].memory, x) ==> x in c.free[a]
    ensures Live(sh, FirstDropped(c), x) <==> Live(sh, c, x)
  {
    hide IsSlot;
    var c' := FirstDropped(c);
    assert forall b :: b != a ==> (LiveOf(sh, c', b, x) <==> LiveOf(sh, c, b, x));
    assert !LiveOf(sh, c', a, x) && !LiveOf(sh, c, a, x);
  }

  // Shrinking drops exactly the slabs without objects in use and leaves the others as they are.
  lemma {:induction false} ShrunkIs(sh: Shape, c: Cache)
    requires ShapeOk(sh) && Classified(sh, c) && c.slabs.Keys == c.free.Keys
    ensures var r := Shrunk(c);
            && r.empty == [] && r.partial == c.partial && r.full == c.full && r.slabs.Keys == r.free.Keys
            && (forall a :: a in r.slabs <==> a in c.slabs && c.slabs[a].objCounter > 0)
            && (forall a :: a in r.slabs ==> r.slabs[a] == c.slabs[a] && r.free[a] == c.free[a])
    decreases |c.empty|
  {
    if c.empty != [] {
      FirstDroppedClassified(sh, c);
      ShrunkIs(sh, FirstDropped(c));
    }
  }

  // list_pop on the empty list.
  method PopEmpty(mem: array<byte>, h: Heads, ghost s: Site, ghost c: Cache) returns (slab: nat, h': Heads)
    requires Stocked(s, mem[..], h, c) && h.empty != 0
    modifies mem
    ensures c.empty != [] && slab == c.empty[0] && Loose(s, mem[..], h', c.(empty := c.empty[1..]), slab)
    ensures Discreet(s, OthersOf(s, c.slabs), c, old(mem[..]), mem[..]) && RecordsKept(c.slabs, old(mem[..]), mem[..])
  {
    hide *;
    ghost var m := mem[..];
    StockedParts(s, m, h, c);
    RepresentsParts(s.sh, m, h, c);
    HeadsAre(s, m, h, c);
    FirstDroppedClassified(s.sh, c);
    TidyAll(c.slabs, c.empty, c.partial, c.full);
    DescriptorsScattered(s.sh, c.slabs, c.empty, mem.Length);
    var head;
    slab, head := ListPop(mem, h.empty, c.empty);
    h' := Heads(head, h.partial, h.full);
    Bystanders(m, mem[..], c.empty, s.sh, c.slabs, c.free, h.partial, c.partial, h.full, c.full);
    TidyTail(c.slabs, c.empty, c.partial, c.full);
    OnlyNodesLength(m, mem[..], c.empty);
    MakeRepresents(s.sh, mem[..], h', c.(empty := c.empty[1..]));
    MakeLoose(s, mem[..], h', c.(empty := c.empty[1..]), slab);
    ExtendsSelf(c.slabs);
    DescriptorFrames(s, c, m, mem[..], h, c);
    LinksKeepRecords(s.sh, c.slabs, m, mem[..]);
  }

  lemma TidyAll(slabs: map<nat, SlabInfo>, s: seq<nat>, t: seq<nat>, u: seq<nat>)
    requires Tidy(slabs, s, t, u)
    ensures AllIn(s, slabs) && AllIn(t, slabs) && AllIn(u, slabs) && NoneIn(t, s) && NoneIn(u, s)
    ensures forall a :: a in s ==> a in slabs
  {
  }

  lemma TidyTail(slabs: map<nat, SlabInfo>, s: seq<nat>, t: seq<nat>, u: seq<nat>)
    requires Tidy(slabs, s, t, u) && s != []
    ensures Tidy(slabs, s[1..], t, u)
  {
    assert forall a: nat :: a in s[1..] ==> a in s;
  }

  lemma ExtendsSelf(slabs: map<nat, SlabInfo>)
    ensures Extends(slabs, slabs)
  {
  }

  // ----- destroying

  // What is left of a cache under destruction: the slabs, each on one of three lists, of which the one
  // being walked may start behind a node that is already gone.
  ghost predicate Left(s: Site, m: seq<byte>, slabs: map<nat, SlabInfo>, before: nat, head: nat, l: seq<nat>,
                       h1: nat, u1: seq<nat>, h2: nat, u2: seq<nat>) {
    && ShapeOk(s.sh) && Spread(s.sh, slabs, |m|) && Separate(s.live) && Owns(s.p, s.live, s.home, s.order, s.sh, slabs)
    && Linked(m, before, head, l) && Linked(m, 0, h1, u1) && Linked(m, 0, h2, u2)
    && Tidy(slabs, l, u1, u2) && (forall a :: a in slabs ==> a in l || a in u1 || a in u2)
  }

  lemma LeftParts(s: Site, m: seq<byte>, slabs: map<nat, SlabInfo>, before: nat, head: nat, l: seq<nat>,
                  h1: nat, u1: seq<nat>, h2: nat, u2: seq<nat>)
    requires Left(s, m, slabs, before, head, l, h1, u1, h2, u2)
    ensures ShapeOk(s.sh) && Spread(s.sh, slabs, |m|) && Separate(s.live) &&
            Owns(s.p, s.live, s.home, s.order, s.sh, slabs)
    ensures Linked(m, before, head, l) && Linked(m, 0, h1, u1) && Linked(m, 0, h2, u2)
    ensures Tidy(slabs, l, u1, u2) && (forall a :: a in slabs ==> a in l || a in u1 || a in u2)
    ensures s.sh.slabSize == 4096 * Pow2(s.order)
  {
  }

  lemma LeftNext(s: Site, m: seq<byte>, slabs: map<nat, SlabInfo>, h1: nat, u1: seq<nat>, h2: nat, u2: seq<nat>)
    requires Left(s, m, slabs, 0, 0, [], h1, u1, h2, u2)
    ensures Left(s, m, slabs, 0, h1, u1, h2, u2, 0, [])
  {
    hide Linked, Spread, Separate, Owns;
    LinkedEmpty(m, 0);
  }

  lemma LeftEnd(s: Site, m: seq<byte>, slabs: map<nat, SlabInfo>, before: nat, head: nat, l: seq<nat>,
                h1: nat, u1: seq<nat>, h2: nat, u2: seq<nat>)
    requires Left(s, m, slabs, before, head, l, h1, u1, h2, u2)
    ensures head == 0 <==> l == []
    ensures head == 0 ==> Left(s, m, slabs, 0, 0, [], h1, u1, h2, u2)
    ensures head != 0 ==> head in slabs && head + 16 <= |m|
  {
    LeftParts(s, m, slabs, before, head, l, h1, u1, h2, u2);
    hide Linked, Spread, Separate, Owns;
    LinkedStep(m, before, head, l);
    LinkedEmpty(m, 0);
    if l != [] {
      assert l[0] in l;
    }
  }

  lemma LeftNone(s: Site, m: seq<byte>, slabs: map<nat, SlabInfo>)
    requires Left(s, m, slabs, 0, 0, [], 0, [], 0, [])
    ensures slabs == map[]
  {
  }

  lemma NextIs(m: seq<byte>, a: nat)
    requires a + 16 <= |m|
    ensures Next(m, a) == Word(m, a)
  {
  }

  // A cache without slabs holds only its own page.
  lemma OnlyHome(s: Site, slabs: map<nat, SlabInfo>)
    requires slabs == map[] && Owns(s.p, s.live, s.home, s.order, s.sh, slabs)
    ensures OthersOf(s, slabs) == s.live - {BlockAt(s.p, s.home, 0)} && LiveAt(s.p, s.live, s.home, 0)
  {
  }

  // The pair of blocks, spelled out.
  lemma PairIs(s: Site, a: nat, info: SlabInfo)
    ensures SlabPair(s, a, info) == {BlockAt(s.p, a, 0), BlockAt(s.p, info.memory, s.order)}
  {
  }

  lemma StockedLeft(s: Site, m: seq<byte>, h: Heads, c: Cache)
    requires Stocked(s, m, h, c)
    ensures Left(s, m, c.slabs, 0, h.full, c.full, h.partial, c.partial, h.empty, c.empty)
  {
    hide Linked, Spread, Separate, Owns;
  }

  // Lists whose nodes lie in live blocks survive what the buddy allocator does.
  lemma DescriptorsKept(s: Site, m: seq<byte>, t: seq<byte>, slabs: map<nat, SlabInfo>, before: nat, head: nat,
                        l: seq<nat>)
    requires Owns(s.p, s.live, s.home, s.order, s.sh, slabs) && Kept(s.p.n, s.p.start, m, t, s.live)
    requires Linked(m, before, head, l) && AllIn(l, slabs)
    ensures Linked(t, before, head, l)
  {
    hide Linked, LiveAt, SameBytes, Kept;
    LinkedInMemory(m, before, head, l);
    forall a | a in l
      ensures SameNode(m, t, a)
    {
      LiveKept(s.p, m, t, s.live, a, 0);
      SizeOne();
      SameBytesNode(m, t, a, a + 4096, a);
    }
    LinkedKept(m, t, before, head, l);
  }

  // The slab at the head of the walked list is given back.
  lemma LeftDropped(s: Site, m: seq<byte>, slabs: map<nat, SlabInfo>, before: nat, head: nat, l: seq<nat>,
                    h1: nat, u1: seq<nat>, h2: nat, u2: seq<nat>, t: seq<byte>)
    requires Left(s, m, slabs, before, head, l, h1, u1, h2, u2) && head != 0 && head in slabs && head + 16 <= |m|
    requires Kept(s.p.n, s.p.start, m, t, s.live - SlabPair(s, head, slabs[head]))
    ensures l != []
    ensures var s' := s.(live := s.live - SlabPair(s, head, slabs[head]));
            && Left(s', t, slabs - {head}, head, Next(m, head), l[1..], h1, u1, h2, u2)
            && OthersOf(s', slabs - {head}) == OthersOf(s, slabs)
  {
    hide *;
    var s' := s.(live := s.live - SlabPair(s, head, slabs[head]));
    var after := slabs - {head};
    LeftParts(s, m, slabs, before, head, l, h1, u1, h2, u2);
    LinkedStep(m, before, head, l);
    LinkedInMemory(m, before, head, l);
    HeadGone(slabs, l, u1, u2);
    OwnsFewer(s, slabs, head, |m|);
    DroppedOthers(s, slabs, head, |m|);
    SeparateFewer(s.live, s'.live);
    KeptLength(s.p, m, t, s'.live);
    SpreadSame(s.sh, slabs, after, |m|);
    DescriptorsKept(s', m, t, after, head, Next(m, head), l[1..]);
    DescriptorsKept(s', m, t, after, 0, h1, u1);
    DescriptorsKept(s', m, t, after, 0, h2, u2);
    MakeLeft(s', t, after, head, Next(m, head), l[1..], h1, u1, h2, u2);
  }

  lemma HeadGone(slabs: map<nat, SlabInfo>, l: seq<nat>, u1: seq<nat>, u2: seq<nat>)
    requires Tidy(slabs, l, u1, u2) && NoDup(l) && l != [] && forall a :: a in slabs ==> a in l || a in u1 || a in u2
    ensures Tidy(slabs - {l[0]}, l[1..], u1, u2)
    ensures AllIn(l[1..], slabs - {l[0]}) && AllIn(u1, slabs - {l[0]}) && AllIn(u2, slabs - {l[0]})
    ensures forall a :: a in slabs - {l[0]} ==> a in l[1..] || a in u1 || a in u2
  {
    TailMember(l);
    assert l[0] in l;
    TidyTail(slabs, l, u1, u2);
    TidyDropped(slabs, l[1..], u1, u2, l[0]);
  }

  lemma MakeLeft(s: Site, m: seq<byte>, slabs: map<nat, SlabInfo>, before: nat, head: nat, l: seq<nat>,
                 h1: nat, u1: seq<nat>, h2: nat, u2: seq<nat>)
    requires ShapeOk(s.sh) && Spread(s.sh, slabs, |m|) && Separate(s.live) &&
             Owns(s.p, s.live, s.home, s.order, s.sh, slabs)
    requires Linked(m, before, head, l) && Linked(m, 0, h1, u1) && Linked(m, 0, h2, u2)
    requires Tidy(slabs, l, u1, u2) && (forall a :: a in slabs ==> a in l || a in u1 || a in u2)
    ensures Left(s, m, slabs, before, head, l, h1, u1, h2, u2)
  {
  }
}
