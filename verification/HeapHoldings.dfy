// What the users of the heap hold, event by event, and how the blocks of the heap are divided among them.
module HeapHoldings {
  import opened Sequences
  import opened Powers
  import opened BuddyMemory
  import opened Buddy
  import opened Memory64
  import opened SlabMemory
  import opened SlabBlocks
  import opened SlabSupply
  import opened SlabLifetime
  import opened Kmalloc

  // A buffer or a block of pages: its address, the size it was asked for, and what was last written at its
  // start.
  datatype Chunk = Chunk(at: nat, size: nat, image: seq<byte>)

  // A cache: its address, the object size it was asked for, and the objects held.
  datatype Kit = Kit(home: nat, size: nat, held: seq<Held>)

  // What the users of the heap hold: buffers, caches with their objects, and blocks of pages.
  datatype Holdings = Holdings(chunks: seq<Chunk>, kits: seq<Kit>, pages: seq<Chunk>)

  datatype Event =
    | Malloc(size: nat)
    | FreeChunk(i: nat)
    | Fill(i: nat, image: seq<byte>)
    | MakeCache(size: nat)
    | DropCache(i: nat)
    | Ask(i: nat, q: Request)
    | TakePages(size: nat)
    | GivePages(i: nat)
    | WritePages(i: nat, image: seq<byte>)

  // What event e, answered by r, makes of the holdings; 0 stands for no memory. Events that nobody has a
  // right to change nothing.
  function After(w: Holdings, e: Event, r: nat): Holdings {
    match e
    case Malloc(size) => if r == 0 then w else w.(chunks := [Chunk(r, size, [])] + w.chunks)
    case FreeChunk(i) => w.(chunks := CutAt(w.chunks, i))
    case Fill(i, image) => w.(chunks := Written(w.chunks, i, image))
    case MakeCache(size) => if r == 0 then w else w.(kits := [Kit(r, size, [])] + w.kits)
    case DropCache(i) => w.(kits := CutAt(w.kits, i))
    case Ask(i, q) => w.(kits := Asked(w.kits, i, q, r))
    case TakePages(size) => if r == 0 then w else w.(pages := [Chunk(r, size, [])] + w.pages)
    case GivePages(i) => w.(pages := CutAt(w.pages, i))
    case WritePages(i, image) => w.(pages := Written(w.pages, i, image))
  }

  function CutAt<T>(s: seq<T>, i: nat): seq<T> {
    if i < |s| then s[..i] + s[i + 1..] else s
  }

  function Written(s: seq<Chunk>, i: nat, image: seq<byte>): seq<Chunk> {
    if i < |s| && |image| <= s[i].size then s[i := s[i].(image := image)] else s
  }

  function Asked(kits: seq<Kit>, i: nat, q: Request, r: nat): seq<Kit> {
    if i < |kits| then kits[i := kits[i].(held := HeldAfter(kits[i].held, q, r, ObjectSize(kits[i].size)))] else kits
  }

  function HeldAfter(held: seq<Held>, q: Request, r: nat, objSize: nat): seq<Held> {
    match q
    case Get(image) => if |image| <= objSize && r != 0 then [Held(r, image)] + held else held
    case Put(i, image) => if i < |held| && 16 + |image| <= objSize then held[..i] + held[i + 1..] else held
    case Use(i, image) => if i < |held| && |image| <= objSize then held[i := Held(held[i].at, image)] else held
    case Trim => held
  }

  lemma CutIs<T>(s: seq<T>, i: nat)
    ensures CutAt(s, i) == if i < |s| then s[..i] + s[i + 1..] else s
  {
  }

  lemma WrittenIs(s: seq<Chunk>, i: nat, image: seq<byte>)
    ensures Written(s, i, image) == if i < |s| && |image| <= s[i].size then s[i := s[i].(image := image)] else s
  {
  }

  // All the events es, answered by rs.
  function AfterAll(w: Holdings, es: seq<Event>, rs: seq<nat>): Holdings
    requires |rs| == |es|
    decreases |es|
  {
    var n := |es| - 1;
    if n < 0 then w else After(AfterAll(w, es[..n], rs[..n]), es[n], rs[n])
  }

  lemma AfterNone(w: Holdings)
    ensures AfterAll(w, [], []) == w
  {
  }

  lemma AfterOneMore(w: Holdings, es: seq<Event>, rs: seq<nat>, e: Event, r: nat)
    requires |rs| == |es|
    ensures AfterAll(w, es + [e], rs + [r]) == After(AfterAll(w, es, rs), e, r)
  {
    assert (es + [e])[..|es|] == es && (rs + [r])[..|rs|] == rs;
  }

  // ----- buffers

  function Starts(chunks: seq<Chunk>): (s: seq<nat>)
    ensures |s| == |chunks| && forall i :: 0 <= i < |chunks| ==> s[i] == chunks[i].at
  {
    seq(|chunks|, i requires 0 <= i < |chunks| => chunks[i].at)
  }

  // Chunk c is in use, of the smallest class that holds it, and its contents are as written.
  ghost predicate ChunkIn(m: seq<byte>, u: iset<nat>, c: Chunk) {
    && 0 < c.at && c.at - 1 in u && |c.image| <= c.size && c.at + |c.image| <= |m|
    && Adequate(c.size + 1, m[c.at - 1]) && m[c.at..c.at + |c.image|] == c.image
  }

  // The chunks are just what is in use.
  ghost predicate ChunksIn(m: seq<byte>, u: iset<nat>, chunks: seq<Chunk>) {
    && NoDup(Starts(chunks)) && (forall i :: 0 <= i < |chunks| ==> ChunkIn(m, u, chunks[i]))
    && (forall o: nat :: o in u ==> o + 1 in Starts(chunks))
  }

  // Object o keeps its bytes.
  ghost predicate ObjectKept(m: seq<byte>, t: seq<byte>, o: nat) {
    o < |m| && SameBytes(m, t, o, o + 32 * Pow2(m[o]))
  }

  lemma ChunkStays(m: seq<byte>, u: iset<nat>, t: seq<byte>, u': iset<nat>, c: Chunk)
    requires ChunkIn(m, u, c) && c.at - 1 in u' && ObjectKept(m, t, c.at - 1)
    ensures ChunkIn(t, u', c)
  {
    forall i | c.at - 1 <= i < c.at + |c.image|
      ensures m[i] == t[i]
    {
      assert SameByte(m, t, i);
    }
  }

  lemma ChunkFacts(m: seq<byte>, u: iset<nat>, chunks: seq<Chunk>, i: nat)
    requires ChunksIn(m, u, chunks) && i < |chunks|
    ensures ChunkIn(m, u, chunks[i]) && chunks[i].at > 0 && chunks[i].at - 1 in u
    ensures NoDup(Starts(chunks)) && forall o: nat :: o in u ==> o + 1 in Starts(chunks)
  {
    hide Adequate;
  }

  lemma ChunksParts(m: seq<byte>, u: iset<nat>, chunks: seq<Chunk>)
    requires ChunksIn(m, u, chunks)
    ensures NoDup(Starts(chunks)) && forall o: nat :: o in u ==> o + 1 in Starts(chunks)
  {
    hide ChunkIn;
  }

  lemma MakeChunksIn(m: seq<byte>, u: iset<nat>, chunks: seq<Chunk>)
    requires NoDup(Starts(chunks)) && forall i: nat :: i < |chunks| ==> ChunkIn(m, u, chunks[i])
    requires forall o: nat :: o in u ==> o + 1 in Starts(chunks)
    ensures ChunksIn(m, u, chunks)
  {
    hide ChunkIn;
  }

  lemma ChunksStay(m: seq<byte>, u: iset<nat>, t: seq<byte>, chunks: seq<Chunk>)
    requires ChunksIn(m, u, chunks) && forall o: nat :: o in u ==> ObjectKept(m, t, o)
    ensures ChunksIn(t, u, chunks)
  {
    hide ChunkIn, ChunksIn, ObjectKept;
    ChunksParts(m, u, chunks);
    forall i: nat | i < |chunks|
      ensures ChunkIn(t, u, chunks[i])
    {
      ChunkFacts(m, u, chunks, i);
      ChunkStays(m, u, t, u, chunks[i]);
    }
    MakeChunksIn(t, u, chunks);
  }

  lemma NewChunk(t: seq<byte>, u: iset<nat>, r: nat, size: nat)
    requires 0 < r <= |t| && r - 1 in u && Adequate(size + 1, t[r - 1])
    ensures ChunkIn(t, u, Chunk(r, size, []))
  {
    hide Adequate;
    assert t[r..r] == [];
  }

  lemma ChunkAdded(m: seq<byte>, u: iset<nat>, t: seq<byte>, u': iset<nat>, chunks: seq<Chunk>, r: nat, size: nat)
    requires ChunksIn(m, u, chunks) && forall o: nat :: o in u ==> ObjectKept(m, t, o)
    requires 0 < r <= |t| && r - 1 !in u && u' == u + iset{r - 1} && Adequate(size + 1, t[r - 1])
    ensures ChunksIn(t, u', [Chunk(r, size, [])] + chunks)
  {
    var c, after := Chunk(r, size, []), [Chunk(r, size, [])] + chunks;
    hide ChunkIn, ChunksIn, ObjectKept, Adequate;
    ChunksParts(m, u, chunks);
    NewChunk(t, u', r, size);
    forall i: nat | i < |chunks|
      ensures ChunkIn(t, u', chunks[i]) && chunks[i].at != r
    {
      ChunkFacts(m, u, chunks, i);
      ChunkStays(m, u, t, u', chunks[i]);
    }
    assert Starts(after) == [r] + Starts(chunks);
    PushMember(Starts(chunks), r);
    MakeChunksIn(t, u', after);
  }

  lemma ChunkRemoved(m: seq<byte>, u: iset<nat>, t: seq<byte>, u': iset<nat>, chunks: seq<Chunk>, i: nat)
    requires ChunksIn(m, u, chunks) && i < |chunks| && forall o: nat :: o in u' ==> ObjectKept(m, t, o)
    requires forall o: nat :: o in u' <==> o in u && o + 1 != chunks[i].at
    ensures ChunksIn(t, u', chunks[..i] + chunks[i + 1..])
  {
    hide ChunkIn, ChunksIn, ObjectKept;
    var after := chunks[..i] + chunks[i + 1..];
    ChunkFacts(m, u, chunks, i);
    CutMember(Starts(chunks), i);
    assert Starts(after) == Starts(chunks)[..i] + Starts(chunks)[i + 1..];
    forall k: nat | k < |after|
      ensures ChunkIn(t, u', after[k])
    {
      var l := if k < i then k else k + 1;
      assert after[k] == chunks[l] && Starts(chunks)[l] != Starts(chunks)[i];
      ChunkFacts(m, u, chunks, l);
      ChunkStays(m, u, t, u', chunks[l]);
    }
    MakeChunksIn(t, u', after);
  }

  lemma ChunkWritten(m: seq<byte>, u: iset<nat>, t: seq<byte>, c: Chunk, image: seq<byte>)
    requires ChunkIn(m, u, c) && |image| <= c.size && |t| == |m| && c.at + |image| <= |t|
    requires t[c.at - 1] == m[c.at - 1] && t[c.at..c.at + |image|] == image
    ensures ChunkIn(t, u, c.(image := image))
  {
    hide Adequate;
  }

  lemma ChunkFilled(m: seq<byte>, u: iset<nat>, t: seq<byte>, chunks: seq<Chunk>, i: nat, image: seq<byte>)
    requires ChunksIn(m, u, chunks) && i < |chunks| && |image| <= chunks[i].size && |t| == |m|
    requires forall o: nat :: o in u && o + 1 != chunks[i].at ==> ObjectKept(m, t, o)
    requires chunks[i].at > 0 && chunks[i].at + |image| <= |t| && t[chunks[i].at - 1] == m[chunks[i].at - 1]
    requires t[chunks[i].at..chunks[i].at + |image|] == image
    ensures ChunksIn(t, u, chunks[i := chunks[i].(image := image)])
  {
    var after := chunks[i := chunks[i].(image := image)];
    assert Starts(after) == Starts(chunks);
    hide ChunkIn, ChunksIn, ObjectKept;
    ChunkFacts(m, u, chunks, i);
    ChunkWritten(m, u, t, chunks[i], image);
    forall k: nat | k < |after| && k != i
      ensures ChunkIn(t, u, after[k])
    {
      assert Starts(chunks)[k] != Starts(chunks)[i];
      ChunkFacts(m, u, chunks, k);
      ChunkStays(m, u, t, u, chunks[k]);
    }
    MakeChunksIn(t, u, after);
  }

  // ----- blocks of pages

  // The block of pages that starts at c.
  function PageNode(p: Place, c: Chunk): nat {
    if c.size == 0 then 0 else BlockAt(p, c.at, OrderFor(c.size))
  }

  function Nodes(p: Place, pages: seq<Chunk>): (s: seq<nat>)
    ensures |s| == |pages| && forall i :: 0 <= i < |pages| ==> s[i] == PageNode(p, pages[i])
  {
    seq(|pages|, i requires 0 <= i < |pages| => PageNode(p, pages[i]))
  }

  // Block c is live, of the smallest order that holds it, and its contents are as written.
  ghost predicate PageIn(p: Place, live: set<nat>, m: seq<byte>, c: Chunk) {
    && c.size >= 1 && LiveAt(p, live, c.at, OrderFor(c.size)) && |c.image| <= c.size
    && c.at + |c.image| <= |m| && m[c.at..c.at + |c.image|] == c.image
  }

  ghost predicate PagesIn(p: Place, live: set<nat>, m: seq<byte>, pages: seq<Chunk>) {
    forall i :: 0 <= i < |pages| ==> PageIn(p, live, m, pages[i])
  }

  lemma SizeHeld(size: nat)
    requires size >= 1
    ensures size <= 4096 * Pow2(OrderFor(size))
  {
  }

  lemma PageStays(p: Place, live: set<nat>, m: seq<byte>, live': set<nat>, t: seq<byte>, kept: set<nat>, c: Chunk)
    requires PageIn(p, live, m, c) && PageNode(p, c) in kept * live' && Kept(p.n, p.start, m, t, kept)
    ensures PageIn(p, live', t, c)
  {
    hide Kept, BlockAt, OrderFor;
    SizeHeld(c.size);
    LiveKept(p, m, t, kept, c.at, OrderFor(c.size));
    forall i | c.at <= i < c.at + |c.image|
      ensures m[i] == t[i]
    {
      assert SameByte(m, t, i);
    }
  }

  lemma PagesStay(p: Place, live: set<nat>, m: seq<byte>, live': set<nat>, t: seq<byte>, kept: set<nat>,
                  pages: seq<Chunk>)
    requires PagesIn(p, live, m, pages) && Kept(p.n, p.start, m, t, kept) && kept <= live'
    requires forall x: nat :: x in Nodes(p, pages) ==> x in kept
    ensures PagesIn(p, live', t, pages)
  {
    hide PageIn, Kept, PageNode;
    forall i: nat | i < |pages|
      ensures PageIn(p, live', t, pages[i])
    {
      assert Nodes(p, pages)[i] in Nodes(p, pages);
      PageStays(p, live, m, live', t, kept, pages[i]);
    }
  }

  lemma NodesAdded(p: Place, c: Chunk, pages: seq<Chunk>)
    ensures Nodes(p, [c] + pages) == [PageNode(p, c)] + Nodes(p, pages)
  {
  }

  lemma NodesCut(p: Place, pages: seq<Chunk>, i: nat)
    requires i < |pages|
    ensures Nodes(p, CutAt(pages, i)) == Nodes(p, pages)[..i] + Nodes(p, pages)[i + 1..]
  {
  }

  lemma NodesWritten(p: Place, pages: seq<Chunk>, i: nat, image: seq<byte>)
    ensures Nodes(p, Written(pages, i, image)) == Nodes(p, pages)
  {
  }

  lemma PageTaken(p: Place, live: set<nat>, m: seq<byte>, at: nat, size: nat)
    requires size >= 1 && LiveAt(p, live, at, OrderFor(size)) && at <= |m|
    ensures PageIn(p, live, m, Chunk(at, size, []))
    ensures PageNode(p, Chunk(at, size, [])) == BlockAt(p, at, OrderFor(size))
  {
    assert m[at..at] == [];
  }

  lemma PagesInAdded(p: Place, live: set<nat>, m: seq<byte>, c: Chunk, pages: seq<Chunk>)
    requires PagesIn(p, live, m, pages) && PageIn(p, live, m, c)
    ensures PagesIn(p, live, m, [c] + pages)
  {
    hide PageIn;
  }

  lemma PageAt(p: Place, live: set<nat>, m: seq<byte>, pages: seq<Chunk>, i: nat)
    requires PagesIn(p, live, m, pages) && i < |pages|
    ensures pages[i].size >= 1 && LiveAt(p, live, pages[i].at, OrderFor(pages[i].size))
    ensures PageNode(p, pages[i]) == BlockAt(p, pages[i].at, OrderFor(pages[i].size)) == Nodes(p, pages)[i]
    ensures Nodes(p, pages)[i] in Nodes(p, pages)
  {
  }

  lemma PagesCut(p: Place, live: set<nat>, m: seq<byte>, pages: seq<Chunk>, i: nat)
    requires PagesIn(p, live, m, pages) && i < |pages|
    ensures PagesIn(p, live, m, CutAt(pages, i))
  {
    hide PageIn;
  }

  lemma PageWritten(p: Place, live: set<nat>, m: seq<byte>, c: Chunk, t: seq<byte>, image: seq<byte>)
    requires PageIn(p, live, m, c) && |image| <= c.size && c.at + |image| <= |t| && t[c.at..c.at + |image|] == image
    ensures PageIn(p, live, t, c.(image := image))
  {
  }

  lemma PagesWritten(p: Place, live: set<nat>, m: seq<byte>, t: seq<byte>, pages: seq<Chunk>, i: nat, image: seq<byte>)
    requires i < |pages| && |image| <= pages[i].size && PageIn(p, live, t, pages[i].(image := image))
    requires forall k: nat :: k < |pages| && k != i ==> PageIn(p, live, t, pages[k])
    ensures PagesIn(p, live, t, Written(pages, i, image))
  {
    hide PageIn;
  }

  lemma OtherNodes(nodes: seq<nat>, i: nat, k: nat)
    requires NoDup(nodes) && i < |nodes| && k < |nodes| && k != i
    ensures nodes[k] != nodes[i] && nodes[k] in nodes
  {
  }

  lemma PageHere(p: Place, live: set<nat>, m: seq<byte>, pages: seq<Chunk>, i: nat)
    requires PagesIn(p, live, m, pages) && i < |pages|
    ensures PageIn(p, live, m, pages[i])
  {
    hide PageIn;
  }

  // ----- the blocks of the heap

  ghost predicate InSome(parts: seq<set<nat>>, x: nat) {
    exists i :: 0 <= i < |parts| && x in parts[i]
  }

  // The blocks foreign to the small buffers are divided among the caches, each with its part, the holders of
  // pages, each with a node, and the rest.
  ghost predicate Divided(foreign: set<nat>, parts: seq<set<nat>>, nodes: seq<nat>, rest: set<nat>) {
    && NoDup(nodes) && rest <= foreign
    && (forall x: nat :: x in nodes ==> x in foreign && x !in rest && !InSome(parts, x))
    && (forall i :: 0 <= i < |parts| ==> parts[i] <= foreign && parts[i] !! rest)
    && (forall i, k :: 0 <= i < k < |parts| ==> parts[i] !! parts[k])
    && (forall x: nat :: x in foreign ==> x in rest || x in nodes || InSome(parts, x))
  }

  lemma DividedParts(foreign: set<nat>, parts: seq<set<nat>>, nodes: seq<nat>, rest: set<nat>)
    requires Divided(foreign, parts, nodes, rest)
    ensures NoDup(nodes) && rest <= foreign
    ensures forall x: nat :: x in nodes ==> x in foreign && x !in rest
    ensures forall i, x: nat :: 0 <= i < |parts| && x in nodes ==> x !in parts[i]
    ensures forall i :: 0 <= i < |parts| ==> parts[i] <= foreign && parts[i] !! rest
    ensures forall i, k :: 0 <= i < |parts| && 0 <= k < |parts| && i != k ==> parts[i] !! parts[k]
  {
    hide NoDup;
    forall x: nat | x in nodes
      ensures forall i :: 0 <= i < |parts| ==> x !in parts[i]
    {
      assert !InSome(parts, x);
    }
  }

  // Cache i worked: its part is another, the others' are the same.
  lemma PartChanged(foreign: set<nat>, parts: seq<set<nat>>, nodes: seq<nat>, rest: set<nat>, i: nat, part: set<nat>,
                    foreign': set<nat>)
    requires Divided(foreign, parts, nodes, rest) && i < |parts| && part !! foreign - parts[i]
    requires foreign' == foreign - parts[i] + part
    ensures Divided(foreign', parts[i := part], nodes, rest)
  {
    hide NoDup;
    DividedParts(foreign, parts, nodes, rest);
    var after := parts[i := part];
    forall x: nat | x in nodes
      ensures x in foreign' && !InSome(after, x)
    {
      forall k | 0 <= k < |after|
        ensures x !in after[k]
      {
      }
    }
    forall x: nat | x in foreign'
      ensures x in rest || x in nodes || InSome(after, x)
    {
      if x in part {
        assert x in after[i];
      } else if k :| 0 <= k < |parts| && x in parts[k] {
        assert x in after[k];
      }
    }
  }

  // A new cache.
  lemma PartAdded(foreign: set<nat>, parts: seq<set<nat>>, nodes: seq<nat>, rest: set<nat>, part: set<nat>)
    requires Divided(foreign, parts, nodes, rest) && part !! foreign
    ensures Divided(foreign + part, [part] + parts, nodes, rest)
  {
    hide NoDup;
    DividedParts(foreign, parts, nodes, rest);
    var after := [part] + parts;
    assert forall k :: 1 <= k < |after| ==> after[k] == parts[k - 1];
    forall x: nat | x in foreign + part
      ensures x in rest || x in nodes || InSome(after, x)
    {
      if x in part {
        assert x in after[0];
      } else if k :| 0 <= k < |parts| && x in parts[k] {
        assert x in after[k + 1];
      }
    }
  }

  // Cache i is gone.
  lemma PartDropped(foreign: set<nat>, parts: seq<set<nat>>, nodes: seq<nat>, rest: set<nat>, i: nat)
    requires Divided(foreign, parts, nodes, rest) && i < |parts|
    ensures Divided(foreign - parts[i], CutAt(parts, i), nodes, rest)
  {
    hide NoDup;
    DividedParts(foreign, parts, nodes, rest);
    var after := CutAt(parts, i);
    assert forall k :: 0 <= k < |after| ==> after[k] == parts[if k < i then k else k + 1];
    forall x: nat | x in foreign - parts[i]
      ensures x in rest || x in nodes || InSome(after, x)
    {
      if k :| 0 <= k < |parts| && x in parts[k] {
        assert x in after[if k < i then k else k - 1];
      }
    }
  }

  lemma NodeAdded(foreign: set<nat>, parts: seq<set<nat>>, nodes: seq<nat>, rest: set<nat>, x: nat)
    requires Divided(foreign, parts, nodes, rest) && x !in foreign
    ensures Divided(foreign + {x}, parts, [x] + nodes, rest)
  {
    PushMember(nodes, x);
    hide NoDup;
    assert forall k :: 0 <= k < |parts| ==> x !in parts[k];
  }

  lemma NodeCut(foreign: set<nat>, parts: seq<set<nat>>, nodes: seq<nat>, rest: set<nat>, i: nat)
    requires Divided(foreign, parts, nodes, rest) && i < |nodes|
    ensures Divided(foreign - {nodes[i]}, parts, nodes[..i] + nodes[i + 1..], rest)
  {
    CutMember(nodes, i);
    hide NoDup;
    DividedParts(foreign, parts, nodes, rest);
    assert nodes[i] in nodes;
  }

  lemma NobodyElse(foreign: set<nat>)
    ensures Divided(foreign, [], [], foreign)
  {
  }

  // When caches and pages are given back, only the rest is left.
  lemma OnlyRest(foreign: set<nat>, rest: set<nat>)
    requires Divided(foreign, [], [], rest)
    ensures foreign == rest
  {
    forall x: nat | x in foreign
      ensures x in rest
    {
      assert !InSome([], x);
    }
  }
}
