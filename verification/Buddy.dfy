// The buddy allocator (buddy.cpp): free lists threaded through the free blocks, and a bitmap over the
// tree of blocks. The heap has Pow2(n) pages of 4096 bytes; the kernel builds it with n = 12.
module Buddy {
  import opened Powers
  import opened BuddyTree
  import opened BuddySteps
  import opened BuddyBlocks
  import opened Sequences
  import opened BuddySpec
  import opened BuddyTheorems
  import opened BuddyMemory
  import opened FreeLists
  import opened Memory64
  import opened Bitmap
  import opened BuddyBits

  // The smallest k with p <= 2^k.
  function CeilLog2(p: nat): (k: nat)
    requires p >= 1
    ensures p <= Pow2(k)
    ensures k > 0 ==> Pow2(k - 1) < p
  {
    if p == 1 then 0 else 1 + CeilLog2((p + 1) / 2)
  }

  function PagesFor(size: nat): nat {
    (size + 4095) / 4096
  }

  // The order of the smallest block that holds size bytes.
  function OrderFor(size: nat): nat
    requires size >= 1
  {
    CeilLog2(PagesFor(size))
  }

  function AlignTo4096(space: nat): (r: nat)
    ensures r % 4096 == 0 && space <= r < space + 4096
  {
    if space % 4096 == 0 then space else (space / 4096 + 1) * 4096
  }

  lemma CeilLog2Unique(p: nat, k: nat)
    requires p >= 1 && p <= Pow2(k) && (k > 0 ==> Pow2(k - 1) < p)
    ensures CeilLog2(p) == k
  {
    var c := CeilLog2(p);
    if c < k {
      Pow2Monotonic(c, k - 1);
    } else if k < c {
      Pow2Monotonic(k, c - 1);
    }
  }

  method FindPowerOfTwo(blockNum: nat) returns (cnt: int)
    requires blockNum >= 1
    ensures cnt == CeilLog2(blockNum)
  {
    var original, rest := blockNum, blockNum;
    cnt := -1;
    while rest > 0
      invariant cnt >= -1 && rest == Div(blockNum, Pow2(cnt + 1))
      invariant cnt >= 0 ==> Div(blockNum, Pow2(cnt)) >= 1
    {
      DivTwice(blockNum, Pow2(cnt + 1));
      rest := rest / 2;
      cnt := cnt + 1;
    }
    LeadingBit(blockNum, cnt);
    if original - Pow2(cnt) > 0 {
      cnt := cnt + 1;
    }
    CeilLog2Unique(blockNum, cnt);
  }

  lemma LeadingBit(p: nat, k: nat)
    requires Div(p, Pow2(k)) >= 1 && Div(p, Pow2(k + 1)) == 0
    ensures Pow2(k) <= p < 2 * Pow2(k)
    ensures k > 0 ==> Pow2(k - 1) < Pow2(k)
  {
    DivUnique(p, Pow2(k + 1), 0);
    DivUnique(p, Pow2(k), 0);
  }

  lemma BitmapSize(n: nat)
    requires n >= 2
    ensures 8 * (2 * Pow2(n) / 8) == 2 * Pow2(n) && Pow2(n) >= 4
  {
    assert Pow2(n) == 2 * Pow2(n - 1) == 4 * Pow2(n - 2);
  }

  lemma PageAddressAligned(start: nat, p: nat)
    ensures (start + 4096 * p) % 4096 == start % 4096
  {
  }

  method GetAddress(entry: nat, address: nat, sign: int) returns (r: int)
    ensures sign == 1 ==> r == address + 4096 * Pow2(entry)
    ensures sign == -1 ==> r == address - 4096 * Pow2(entry)
  {
    r := address + 4096 * Pow2(entry) * sign;
  }

  ghost predicate Distinct(a: object, b: object, c: object) {
    a != b && a != c && b != c
  }

  class BuddyAllocator {
    const n: nat
    const start: nat
    const heapEndAddr: nat
    const mem: array<byte>
    const bitmap: array<bv8>
    const freeList: array<nat>
    ghost var live: set<nat>
    ghost var lists: Lists

    ghost predicate Geometry() {
      && start % 4096 == 0 && Placed(n, start, mem.Length)
      && start + 4096 * Pow2(n) <= heapEndAddr
      && 8 * bitmap.Length == 2 * Pow2(n) && freeList.Length == n + 1
      && Distinct(mem, bitmap, freeList)
    }

    // Initialisation leaves the first word of the heap alone, although it is the link word of the one
    // free block: the result is valid exactly when that word happens to be zero.
    constructor (space: nat, n: nat, mem: array<byte>, heapEndAddr: nat)
      requires 2 <= n && 0 < space && AlignTo4096(space) + 4096 * Pow2(n) <= mem.Length < TWO_TO_64
      requires AlignTo4096(space) + 4096 * Pow2(n) <= heapEndAddr
      ensures this.n == n && this.mem == mem && this.start == AlignTo4096(space) && this.heapEndAddr == heapEndAddr
      ensures fresh(bitmap) && fresh(freeList)
      ensures live == {} && lists == InitLists(n)
      ensures Geometry() && (Valid() <==> Word(mem[..], start) == 0)
    {
      this.n, this.mem, this.heapEndAddr := n, mem, heapEndAddr;
      start := AlignTo4096(space);
      BitmapSize(n);
      bitmap := new bv8[2 * Pow2(n) / 8];
      freeList := new nat[n + 1];
      live, lists := {}, InitLists(n);
      new;
      for i := 0 to n + 1
        invariant live == {} && lists == InitLists(n)
        invariant forall m :: 0 <= m < i ==> freeList[m] == 0
      {
        freeList[i] := 0;
      }
      freeList[n] := start;
      BitmapInit(bitmap);
      InitCanonical(n);
      InitThreaded(n, start, mem[..], freeList[..]);
    }

    // Bitmap, list heads and link words all say what lv and ls say.
    ghost predicate Coherent(lv: set<nat>, ls: Lists)
      reads mem, bitmap, freeList
    {
      Geometry() && Canonical(n, lv, ls) && BitsShow(bitmap[..], lv) && Threaded(n, start, mem[..], freeList[..], ls)
    }

    ghost predicate Valid()
      reads this, mem, bitmap, freeList
    {
      Coherent(live, lists)
    }

    // The allocator is sound if memory is m.
    ghost predicate ValidWith(m: seq<byte>)
      reads this, bitmap, freeList
    {
      && Geometry() && Canonical(n, live, lists) && BitsShow(bitmap[..], live)
      && |m| == mem.Length && Threaded(n, start, m, freeList[..], lists)
    }

    // Owners of live blocks may write what they like in them.
    lemma ValidAfterOwnedWrites(m: seq<byte>)
      requires ValidWith(m) && OwnedOnly(n, start, m, mem[..], live)
      ensures Valid()
    {
      OwnedWritesHarmless(n, start, live, lists, m, mem[..], freeList[..]);
    }

    // Pops the head of list i and marks it in the bitmap, the first step of either way to allocate.
    method TakeHead(i: nat, ghost lv: set<nat>, ghost ls: Lists) returns (chunk: nat, ghost x: nat)
      requires Coherent(lv, ls) && i <= n && ls[i] != []
      modifies bitmap, freeList
      ensures x == ls[i][0] && chunk == Address(n, start, x) && Depth(x) == n - i && x !in lv
      ensures Coherent(lv + {x}, ls[i := ls[i][1..]])
    {
      x := ls[i][0];
      TakeStep(n, lv, ls, i);
      chunk := PopHead(i, ls);
      ghost var m, h := mem[..], freeList[..];
      MarkUsed(chunk, i, x);
      assert mem[..] == m && freeList[..] == h;
      BitsTaken(old(bitmap[..]), bitmap[..], lv, x);
    }

    method PopHead(i: nat, ghost ls: Lists) returns (chunk: nat)
      requires Threaded(n, start, mem[..], freeList[..], ls) && i < |ls| && ls[i] != []
      modifies freeList
      ensures Threaded(n, start, mem[..], freeList[..], ls[i := ls[i][1..]])
      ensures chunk == Address(n, start, ls[i][0])
    {
      assert Strand(n, start, mem[..], freeList[..], ls, i);
      chunk := freeList[i];
      ChainPop(mem[..], chunk, Addresses(n, start, ls[i]));
      assert Addresses(n, start, ls[i])[1..] == Addresses(n, start, ls[i][1..]);
      var next := Load64(mem, freeList[i]);
      freeList[i] := next;
      ghost var heads, popped := freeList[..], ls[i := ls[i][1..]];
      forall k | 0 <= k < |ls|
        ensures Strand(n, start, mem[..], heads, popped, k)
      {
        assert Strand(n, start, mem[..], old(freeList[..]), ls, k);
      }
    }

    // One level of splitting: the right half becomes the only block on list j, the left half is kept.
    method SplitOnce(j: nat, chunk: nat, ghost lv: set<nat>, ghost x: nat, ghost ls: Lists)
      requires Coherent(lv + {x}, ls) && x !in lv && j < n && Depth(x) == n - (j + 1) && ls[j] == []
      requires chunk == Address(n, start, x)
      modifies mem, bitmap, freeList
      ensures Coherent(lv + {2 * x + 1}, ls[j := [2 * x + 2]])
      ensures 2 * x + 1 !in lv && Depth(2 * x + 1) == n - j && Address(n, start, 2 * x + 1) == chunk
      ensures Kept(n, start, old(mem[..]), mem[..], lv + {2 * x + 1})
    {
      hide *;
      ghost var l, r := 2 * x + 1, 2 * x + 2;
      CoherentParts(lv + {x}, ls);
      SplitStep(n, lv, ls, x, j + 1);
      RightHalf(x, lv, ls);
      ghost var bits := bitmap[..];
      CutRight(j, chunk, r, ls);
      LinkWriteKept(n, start, old(mem[..]), mem[..], lv + {l}, r);
      MarkUsed(chunk, j, l);
      BitsSplit(bits, bitmap[..], lv, l);
      MakeCoherent(lv + {l}, ls[j := [r]]);
    }

    method CutRight(j: nat, chunk: nat, ghost r: nat, ghost ls: Lists)
      requires Geometry() && Threaded(n, start, mem[..], freeList[..], ls) && j < |ls| && ls[j] == []
      requires Depth(r) <= n && Address(n, start, r) == chunk + 4096 * Pow2(j) && OverlapsNone(n, ls, r)
      modifies mem, freeList
      ensures Threaded(n, start, mem[..], freeList[..], ls[j := [r]])
      ensures SameOutside(old(mem[..]), mem[..], Address(n, start, r), Address(n, start, r) + 8)
    {
      ghost var m, h := mem[..], freeList[..];
      HeadNonzero(n, start, m, h, ls, j);
      AddressInside(n, start, r, mem.Length);
      freeList[j] := chunk + 4096 * Pow2(j);
      assert mem[..] == m;
      Store64(mem, freeList[j], 0);
      assert freeList[..] == h[j := Address(n, start, r)] && [r] + ls[j] == [r];
      ThreadedPush(n, start, m, mem[..], h, ls, j, r);
    }

    // Facts about the right half of a block x taken off its list.
    lemma RightHalf(x: nat, lv: set<nat>, ls: Lists)
      requires Geometry() && Depth(x) < n && x !in lv && Canonical(n, lv + {x}, ls)
      ensures var r := 2 * x + 2;
              && Depth(r) == Depth(x) + 1
              && Address(n, start, r) == Address(n, start, x) + 4096 * Pow2(n - Depth(x) - 1)
              && OverlapsNone(n, ls, r)
              && Clear(lv + {2 * x + 1}, r)
      ensures Parent(2 * x + 1) == x && Address(n, start, 2 * x + 1) == Address(n, start, x)
    {
      Halves(x);
      hide *;
      var r := 2 * x + 2;
      HalfClear(x, lv, ls);
      forall i, y | 0 <= i < |ls| && y in ls[i]
        ensures Depth(y) <= n && Apart(r, y)
      {
        ListedApart(x, lv, ls, i, y);
        ApartFromChild(y, r);
        ApartSymmetric(y, r);
      }
      MakeOverlapsNone(n, ls, r);
    }

    // The two halves of a block: their parent, depth and addresses.
    lemma Halves(x: nat)
      requires Geometry() && Depth(x) < n
      ensures Parent(2 * x + 1) == x && Parent(2 * x + 2) == x && Depth(2 * x + 2) == Depth(x) + 1
      ensures Address(n, start, 2 * x + 2) == Address(n, start, x) + 4096 * Pow2(n - Depth(x) - 1)
      ensures Address(n, start, 2 * x + 1) == Address(n, start, x)
    {
    }

    lemma HalfClear(x: nat, lv: set<nat>, ls: Lists)
      requires x !in lv && Canonical(n, lv + {x}, ls)
      ensures Clear(lv + {2 * x + 1}, 2 * x + 2)
    {
      hide Contains, Depth, NoDup;
      assert Parent(2 * x + 1) == x && Sibling(2 * x + 1) == 2 * x + 2;
      Child(lv, 2 * x + 1);
    }

    // Listed blocks are apart from the live block x.
    lemma ListedApart(x: nat, lv: set<nat>, ls: Lists, i: nat, y: nat)
      requires Canonical(n, lv + {x}, ls) && i < |ls| && y in ls[i]
      ensures Depth(y) <= n && Apart(y, x)
    {
      hide Contains, NoDup;
      assert x in lv + {x};
    }

    method MarkUsed(chunk: nat, i: nat, ghost x: nat)
      requires Geometry() && i <= n && chunk == Address(n, start, x) && Depth(x) == n - i
      modifies bitmap
      ensures BitChanged(old(bitmap[..]), bitmap[..], x, true)
    {
      IndexInBitmap(x);
      var bitIndex := NodeIndex(chunk, i, x);
      SetBit(bitmap, bitIndex, 1);
    }

    method NodeIndex(address: nat, entry: nat, ghost x: nat) returns (bitIndex: nat)
      requires entry <= n && Depth(x) == n - entry && address == Address(n, start, x)
      ensures bitIndex == x
    {
      IndexOfFirstPage(n, x);
      assert (address - start) / 4096 == FirstPage(n, x);
      bitIndex := BitIndex(address, entry, n, start);
    }

    lemma IndexInBitmap(x: nat)
      requires Geometry() && Depth(x) <= n
      ensures x < 8 * bitmap.Length - 1
    {
      DepthRange(x, Depth(x));
      Pow2Monotonic(Depth(x), n);
    }

    // Splits the taken block x of order i down to order entry.
    method SplitDown(i: nat, entry: nat, chunk: nat, ghost lv: set<nat>, ghost x: nat, ghost ls: Lists)
      returns (ghost y: nat, ghost after: Lists)
      requires Coherent(lv + {x}, ls) && x !in lv && entry < i <= n && Depth(x) == n - i &&
               chunk == Address(n, start, x)
      requires forall m :: entry <= m < i ==> ls[m] == []
      modifies mem, bitmap, freeList
      ensures (after, y) == Descend(ls, x, i, entry) && chunk == Address(n, start, y)
      ensures y !in lv && Coherent(lv + {y}, after) && Kept(n, start, old(mem[..]), mem[..], lv + {y})
    {
      hide *;
      y, after := x, ls;
      KeptSelf(n, start, mem[..], lv + {x});
      CoherentParts(lv + {x}, ls);
      for j := i downto entry
        invariant Coherent(lv + {y}, after) && y !in lv && Depth(y) == n - j && chunk == Address(n, start, y)
        invariant |after| == n + 1 && Descend(after, y, j, entry) == Descend(ls, x, i, entry)
        invariant forall m :: entry <= m < j ==> after[m] == []
        invariant Kept(n, start, old(mem[..]), mem[..], lv + {y})
      {
        ghost var m := mem[..];
        SplitOnce(j, chunk, lv, y, after);
        LeftHalfPages(n, start, old(mem[..]), m, lv, y);
        DescendOnce(after, y, j + 1, entry);
        KeptThen(n, start, old(mem[..]), m, mem[..], lv + {2 * y + 1});
        y, after := 2 * y + 1, after[j := [2 * y + 2]];
      }
      DescendEnd(after, y, entry);
    }

    // What an allocation of order k did to the live blocks and the lists, and what it returned.
    ghost predicate Allocated(k: nat, lv: set<nat>, ls: Lists, r: nat, y: nat)
      requires k < |ls|
      reads this
    {
      match BuddySpec.Alloc(ls, k)
      case None => r == 0 && live == lv && lists == ls
      case Some((after, z)) =>
        y == z && r == Address(n, start, y) && r != 0 && live == lv + {y} && lists == after
    }

    // The block of the smallest sufficient order, or 0 when no free block is big enough.
    method Alloc(size: nat) returns (r: nat, ghost y: nat)
      requires Valid() && 1 <= size <= 4096 * Pow2(n)
      modifies this, mem, bitmap, freeList
      ensures Valid() && OrderFor(size) <= n
      ensures Allocated(OrderFor(size), old(live), old(lists), r, y)
      ensures Kept(n, start, old(mem[..]), mem[..], live)
    {
      var blocks := size / 4096;
      blocks := blocks + (if size % 4096 > 0 then 1 else 0);
      OrderWithin(size);
      OrderIs(size);
      hide *;
      ValidIs();
      ValidParts();
      var entry := FindPowerOfTwo(blocks);
      HeadNonzero(n, start, mem[..], freeList[..], lists, entry);
      if freeList[entry] != 0 {
        r, y := AllocExact(entry);
      } else {
        r, y := AllocLarger(entry);
      }
    }

    lemma OrderIs(size: nat)
      requires size >= 1
      ensures PagesFor(size) >= 1 && OrderFor(size) == CeilLog2(PagesFor(size))
    {
    }

    method AllocExact(entry: nat) returns (r: nat, ghost y: nat)
      requires Valid() && entry <= n && lists[entry] != []
      modifies this, bitmap, freeList
      ensures Valid() && Allocated(entry, old(live), old(lists), r, y)
      ensures Kept(n, start, old(mem[..]), mem[..], live)
    {
      hide *;
      ValidIs();
      ValidParts();
      CoherentParts(live, lists);
      ghost var lv, ls := live, lists;
      r, y := TakeHead(entry, live, lists);
      AddressPositive(y);
      live, lists := live + {y}, lists[entry := lists[entry][1..]];
      MakeValid();
      ExactIs(entry, lv, ls, r, y);
      KeptSelf(n, start, mem[..], live);
    }

    lemma AddressPositive(x: nat)
      requires Geometry() && Depth(x) <= n
      ensures Address(n, start, x) > 0
    {
      AddressInside(n, start, x, mem.Length);
    }

    lemma ExactIs(entry: nat, lv: set<nat>, ls: Lists, r: nat, y: nat)
      requires entry < |ls| && ls[entry] != [] && y == ls[entry][0] && r == Address(n, start, y) && r != 0
      requires live == lv + {y} && lists == ls[entry := ls[entry][1..]]
      ensures Allocated(entry, lv, ls, r, y)
    {
      hide Address;
    }

    // What an allocation that does not return 0 promises: a block of the smallest power of two of pages
    // that holds size bytes, aligned to its own size, inside the heap, and apart from every live block.
    lemma AllocPromise(size: nat, lv: set<nat>, ls: Lists, r: nat, y: nat) returns (q: nat)
      requires Geometry() && 1 <= size && OrderFor(size) <= n && Canonical(n, lv, ls)
      requires Allocated(OrderFor(size), lv, ls, r, y) && r != 0
      ensures var bytes := 4096 * Pow2(OrderFor(size));
              && size <= bytes && (OrderFor(size) > 0 ==> bytes < 2 * size)
              && r == start + q * bytes && r + bytes <= start + 4096 * Pow2(n)
              && forall l :: l in lv ==>
                   r + bytes <= Address(n, start, l) || Address(n, start, l) + 4096 * Size(n, l) <= r
    {
      hide *;
      var k := OrderFor(size);
      ListCount(n, lv, ls);
      AllocatedParts(k, lv, ls, r, y);
      AllocOk(n, lv, ls, k);
      MinimalOrder(size);
      q := AddressAligned(n, start, y, k);
      SizeIs(n, y);
      forall l | l in lv
        ensures r + 4096 * Pow2(k) <= Address(n, start, l) || Address(n, start, l) + 4096 * Size(n, l) <= r
      {
        LiveInTree(n, lv, ls, l);
        ApartBytes(n, start, y, l);
      }
    }

    lemma MinimalOrder(size: nat)
      requires 1 <= size
      ensures size <= 4096 * Pow2(OrderFor(size)) && (OrderFor(size) > 0 ==> 4096 * Pow2(OrderFor(size)) < 2 * size)
    {
      var k := OrderFor(size);
      if k > 0 {
        assert Pow2(k) == 2 * Pow2(k - 1);
      }
    }

    lemma LiveInTree(n: nat, lv: set<nat>, ls: Lists, l: nat)
      requires Canonical(n, lv, ls) && l in lv
      ensures Depth(l) <= n
    {
    }

    // Looks for a bigger block, takes the first one found and splits it down to order entry.
    method AllocLarger(entry: nat) returns (r: nat, ghost y: nat)
      requires Valid() && entry <= n && lists[entry] == []
      modifies this, mem, bitmap, freeList
      ensures Valid() && Allocated(entry, old(live), old(lists), r, y)
      ensures Kept(n, start, old(mem[..]), mem[..], live)
    {
      y := 0;
      for i := entry + 1 to n + 1
        invariant Valid() && unchanged(this, mem, bitmap, freeList)
        invariant forall m :: entry <= m < i ==> lists[m] == []
      {
        HeadNonzero(n, start, mem[..], freeList[..], lists, i);
        if freeList[i] != 0 {
          r, y := TakeAndSplit(i, entry);
          return;
        }
      }
      r := 0;
    }

    method TakeAndSplit(i: nat, entry: nat) returns (r: nat, ghost y: nat)
      requires Valid() && entry < i <= n && lists[i] != [] && forall m :: entry <= m < i ==> lists[m] == []
      modifies this, mem, bitmap, freeList
      ensures Valid() && Allocated(entry, old(live), old(lists), r, y)
      ensures Kept(n, start, old(mem[..]), mem[..], live)
    {
      ghost var x, popped := lists[i][0], lists[i := lists[i][1..]];
      ghost var m := mem[..];
      r, x := TakeHead(i, live, lists);
      assert mem[..] == m;
      y, lists := SplitDown(i, entry, r, live, x, popped);
      live := live + {y};
      assert FirstAvail(old(lists), entry) == i;
    }

    lemma OrderWithin(size: nat)
      requires 1 <= size <= 4096 * Pow2(n)
      ensures PagesFor(size) == size / 4096 + (if size % 4096 > 0 then 1 else 0)
      ensures 1 <= PagesFor(size) && OrderFor(size) <= n
    {
      if OrderFor(size) > n {
        Pow2Monotonic(n, OrderFor(size) - 1);
      }
    }

    // Climbs the bitmap from the page's leaf to the first set bit: the order the block was allocated with.
    method RecoverOrder(pa: nat, ghost x: nat) returns (entry: nat, bitIndex: nat)
      requires Valid() && x in live && pa == Address(n, start, x)
      ensures entry == n - Depth(x) && bitIndex == x
    {
      hide *;
      ValidParts();
      LiveInTree(n, live, lists, x);
      entry, bitIndex := 0, 0;
      for i := 0 to n + 1
        invariant i <= n - Depth(x)
      {
        ScanStep(x, i);
        bitIndex := BitIndex(pa, i, n, start);
        var bitValue := CheckBit(bitmap, bitIndex);
        entry := i;
        if bitValue > 0 {
          break;
        }
      }
    }

    // The scan meets clear bits below the order of the block and a set bit at it.
    lemma ScanStep(x: nat, i: nat)
      requires Valid() && x in live && i <= n - Depth(x)
      ensures Address(n, start, x) == start + 4096 * FirstPage(n, x)
      ensures var y := IndexOf(n, FirstPage(n, x), i);
              && y < 8 * bitmap.Length && (BitAt(bitmap[..], y) <==> i == n - Depth(x))
              && (i == n - Depth(x) ==> y == x)
    {
      IndexOfFirstPage(n, x);
      BlockInside(n, x);
      IndexDepth(n, FirstPage(n, x), i);
      IndexInBitmap(IndexOf(n, FirstPage(n, x), i));
      assert Contains(x, x);
      if i < n - Depth(x) {
        BelowLiveClear(n, live, x, i);
      }
    }

    predicate Rejected(pa: nat) {
      pa % 4096 != 0 || pa < start || pa >= heapEndAddr
    }

    // Gives back the live block x at pa; an address the guard rejects changes nothing.
    method Free(pa: nat, ghost x: nat)
      requires Valid() && (Rejected(pa) || (x in live && pa == Address(n, start, x)))
      modifies this, mem, bitmap, freeList
      ensures Valid() && Kept(n, start, old(mem[..]), mem[..], live)
      ensures Rejected(pa) ==> unchanged(this, mem, bitmap, freeList)
      ensures !Rejected(pa) ==>
                && live == old(live) - {x}
                && lists == Coalesce(live, old(lists), x, n - Depth(x))
    {
      if pa % 4096 != 0 || pa < start || pa >= heapEndAddr {
        KeptSelf(n, start, mem[..], live);
        return;
      }
      hide *;
      ValidIs();
      var entryNum, bitIndex := RecoverOrder(pa, x);
      live := live - {x};
      assert live + {x} == old(live);
      lists := Merge(entryNum, bitIndex, pa, live, lists);
      MakeValid();
    }

    lemma ValidIs()
      requires Valid()
      ensures Coherent(live, lists)
    {
    }

    lemma MakeValid()
      requires Coherent(live, lists)
      ensures Valid()
    {
    }

    // The merge loop: c is the block under release, base the blocks that stay live.
    method Merge(entryNum: nat, bitIndex: nat, address: nat, ghost base: set<nat>, ghost ls: Lists)
      returns (ghost after: Lists)
      requires bitIndex !in base && entryNum + Depth(bitIndex) == n && address == Address(n, start, bitIndex)
      requires Coherent(base + {bitIndex}, ls)
      modifies mem, bitmap, freeList
      ensures Coherent(base, after) && after == Coalesce(base, ls, bitIndex, entryNum)
      ensures Kept(n, start, old(mem[..]), mem[..], base)
    {
      hide *;
      var c, pa, i := bitIndex, address, entryNum;
      after := ls;
      KeptSelf(n, start, mem[..], base);
      CoherentParts(base + {c}, ls);
      while i <= n
        invariant c !in base && i + Depth(c) == n && pa == Address(n, start, c)
        invariant Coherent(base + {c}, after)
        invariant |after| == n + 1 && Coalesce(base, after, c, i) == Coalesce(base, ls, bitIndex, entryNum)
        invariant Kept(n, start, old(mem[..]), mem[..], base)
        decreases n + 1 - i
      {
        CoherentParts(base + {c}, after);
        CoalesceOnce(base, after, c, i);
        SiblingBit(base, c);
        RootDepth(c);
        ghost var bits, m := bitmap[..], mem[..];
        if c == 0 {
          BitsReleased(bits, bits, base, c);
          ReleaseBlock(n, pa, c, base, after);
          after := after[n := [c] + after[n]];
          MakeCoherent(base, after);
          KeptThen(n, start, old(mem[..]), m, mem[..], base);
          return;
        }
        IndexInBitmap(c);
        SetBit(bitmap, c, 0);
        var buddyIndex := FindBuddyIndex(c);
        SiblingInBitmap(c);
        var buddyValue := CheckBit(bitmap, buddyIndex);
        SiblingBitShown(base, c, bits, bitmap[..]);
        if buddyValue == 1 {
          BitsReleased(bits, bitmap[..], base, c);
          ReleaseBlock(i, pa, c, base, after);
          after := after[i := [c] + after[i]];
          MakeCoherent(base, after);
          KeptThen(n, start, old(mem[..]), m, mem[..], base);
          break;
        } else {
          MergeStep(n, base, after, c, i);
          BitsMerged(bits, bitmap[..], base, c);
          ghost var s := Sibling(c);
          pa, c := JoinSibling(i, pa, c, buddyIndex, base, after);
          after := after[i := Without(after[i], s)];
          MakeCoherent(base + {c}, after);
          KeptThen(n, start, old(mem[..]), m, mem[..], base);
          i := i + 1;
        }
      }
    }

    lemma CoherentParts(lv: set<nat>, ls: Lists)
      requires Coherent(lv, ls)
      ensures Geometry() && Canonical(n, lv, ls) && |ls| == n + 1 && Separate(lv) && BitsShow(bitmap[..], lv)
      ensures Threaded(n, start, mem[..], freeList[..], ls) && (bitmap as object) != (mem as object)
      ensures (bitmap as object) != (freeList as object) && freeList.Length == n + 1 && |mem[..]| == mem.Length
    {
    }

    lemma MakeCoherent(lv: set<nat>, ls: Lists)
      requires Geometry() && Canonical(n, lv, ls) && BitsShow(bitmap[..], lv) &&
               Threaded(n, start, mem[..], freeList[..], ls)
      ensures Coherent(lv, ls)
    {
    }

    // The bit read for the sibling, after the bit of c itself was cleared.
    lemma SiblingBitShown(base: set<nat>, c: nat, bits: seq<bv8>, t: seq<bv8>)
      requires c > 0 && c < 8 * |bits| && Sibling(c) < 8 * |bits| && BitsShow(bits, base + {c}) && Sibling(c) != c
      requires BitChanged(bits, t, c, false)
      ensures BitAt(t, Sibling(c)) <==> Bit(base + {c}, Sibling(c))
    {
    }

    // Puts the block on its list; the bitmap already shows it free.
    method ReleaseBlock(i: nat, pa: nat, ghost c: nat, ghost base: set<nat>, ghost ls: Lists)
      requires Geometry() && c !in base && i + Depth(c) == n && pa == Address(n, start, c)
      requires Canonical(n, base + {c}, ls) && (c == 0 || Bit(base + {c}, Sibling(c)))
      requires Threaded(n, start, mem[..], freeList[..], ls)
      modifies mem, freeList
      ensures Canonical(n, base, ls[i := [c] + ls[i]])
      ensures Threaded(n, start, mem[..], freeList[..], ls[i := [c] + ls[i]])
      ensures Kept(n, start, old(mem[..]), mem[..], base)
    {
      ghost var m, h := mem[..], freeList[..];
      ReleaseStep(n, base, ls, c, i);
      AddressInside(n, start, c, mem.Length);
      OverlapsNoneLive(base, c, ls);
      ApartFits(n, start, c, ls[i], mem.Length);
      assert Strand(n, start, m, h, ls, i);
      FreelistInsert(mem, freeList, i, pa, Addresses(n, start, ls[i]));
      ThreadedPush(n, start, m, mem[..], h, ls, i, c);
      ClearAfterRelease(base, c);
      LinkWriteKept(n, start, m, mem[..], base, c);
    }

    lemma OverlapsNoneLive(base: set<nat>, c: nat, ls: Lists)
      requires Canonical(n, base + {c}, ls)
      ensures OverlapsNone(n, ls, c)
    {
      hide Contains, Parent;
      forall i, y | 0 <= i < |ls| && y in ls[i] ensures Depth(y) <= n && Apart(c, y) {
        assert Depth(y) == n - i && Maximal(base + {c}, y);
        assert c in base + {c};
      }
    }

    lemma ClearAfterRelease(base: set<nat>, c: nat)
      requires c !in base && Separate(base + {c})
      ensures Clear(base, c)
    {
      assert c in base + {c} && forall l :: l in base ==> l in base + {c};
    }

    lemma SiblingInBitmap(c: nat)
      requires Geometry() && c > 0 && Depth(c) <= n
      ensures Sibling(c) < 8 * bitmap.Length && Sibling(c) != c
    {
      SiblingsApart(c);
      IndexInBitmap(Sibling(c));
    }

    // Takes the free sibling off its list; block and sibling together are the parent.
    method JoinSibling(i: nat, pa: nat, c: nat, buddyIndex: nat, ghost base: set<nat>, ghost ls: Lists)
      returns (parentAddress: nat, parentIndex: nat)
      requires Geometry() && 0 < c && i + Depth(c) == n && pa == Address(n, start, c) && buddyIndex == Sibling(c)
      requires Canonical(n, base + {c}, ls) && Threaded(n, start, mem[..], freeList[..], ls)
      modifies mem, freeList
      ensures i < n && parentIndex == Parent(c) && parentAddress == Address(n, start, Parent(c))
      ensures Threaded(n, start, mem[..], freeList[..], ls[i := Without(ls[i], Sibling(c))])
      ensures Kept(n, start, old(mem[..]), mem[..], base)
    {
      SiblingAddresses(n, start, c);
      var sign: int := buddyIndex - c;
      var buddyAddress := GetAddress(i, pa, sign);
      Unlink(i, buddyAddress, Sibling(c), base + {c}, ls);
      KeptFewer(n, start, old(mem[..]), mem[..], base + {c}, base);
      parentAddress := if buddyAddress > pa then pa else buddyAddress;
      parentIndex := NodeIndex(parentAddress, i + 1, Parent(c));
    }

    method Unlink(i: nat, buddyAddress: nat, ghost s: nat, ghost lv: set<nat>, ghost ls: Lists)
      requires Geometry() && i + Depth(s) == n && buddyAddress == Address(n, start, s)
      requires Canonical(n, lv, ls) && Threaded(n, start, mem[..], freeList[..], ls)
      modifies mem, freeList
      ensures Threaded(n, start, mem[..], freeList[..], ls[i := Without(ls[i], s)])
      ensures Kept(n, start, old(mem[..]), mem[..], lv)
    {
      ghost var m, h := mem[..], freeList[..];
      assert Strand(n, start, m, h, ls, i);
      AddressInside(n, start, s, mem.Length);
      ghost var l := Addresses(n, start, ls[i]);
      RemoveFromFreelist(mem, freeList, i, buddyAddress, l);
      if m != mem[..] {
        ghost var j :| 0 <= j < |l| && SameOutside(m, mem[..], l[j], l[j] + 8);
        assert ls[i][j] in ls[i];
        assert OneLinkChanged(n, start, m, mem[..], ls[i]);
      }
      ThreadedWithout(n, start, lv, m, mem[..], h, freeList[..], ls, i, s);
      LinkChangeKept(n, start, m, mem[..], lv, ls, i);
    }

    // Freeing a block right after allocating it restores the bitmap, the list heads and every list.
    method AllocThenFree(size: nat)
      requires Valid() && 1 <= size <= 4096 * Pow2(n)
      modifies this, mem, bitmap, freeList
      ensures Valid() && live == old(live) && lists == old(lists)
      ensures bitmap[..] == old(bitmap[..]) && freeList[..] == old(freeList[..])
    {
      hide *;
      ghost var bits, m, heads, lv, ls := bitmap[..], mem[..], freeList[..], live, lists;
      ValidParts();
      var r, y := Alloc(size);
      AllocatedParts(OrderFor(size), lv, ls, r, y);
      if r != 0 {
        AllocOk(n, lv, ls, OrderFor(size));
        AllocFreeIdentity(n, lv, ls, OrderFor(size));
        AddressAccepted(y);
        Free(r, y);
        assert live == lv;
      }
      ValidParts();
      BitsUnique(bits, bitmap[..], live);
      HeadsUnique(n, start, m, heads, mem[..], freeList[..], lists);
    }

    lemma ValidParts()
      requires Valid()
      ensures Geometry() && Canonical(n, live, lists) && |lists| == n + 1 && BitsShow(bitmap[..], live)
      ensures Threaded(n, start, mem[..], freeList[..], lists) && |freeList[..]| == |lists|
    {
    }

    lemma AllocatedParts(k: nat, lv: set<nat>, ls: Lists, r: nat, y: nat)
      requires Geometry() && k <= n && |ls| == n + 1 && Allocated(k, lv, ls, r, y) && Canonical(n, lv, ls)
      ensures r == 0 ==> BuddySpec.Alloc(ls, k) == None && live == lv && lists == ls
      ensures r != 0 ==> BuddySpec.Alloc(ls, k) == Some((lists, y)) && r == Address(n, start, y) && live == lv + {y}
    {
    }

    // Once everything is freed, bitmap, list heads and lists are what initialisation made them.
    lemma EverythingFree()
      requires Valid() && live == {}
      ensures lists == InitLists(n)
      ensures forall x: nat :: x < 8 * bitmap.Length ==> (BitAt(bitmap[..], x) <==> x == 0)
      ensures freeList[n] == start && forall k: nat :: k < n ==> freeList[k] == 0
    {
      EmptyIsInit(n, lists);
      forall k: nat | k <= n
        ensures freeList[k] == if k == n then start else 0
      {
        assert Strand(n, start, mem[..], freeList[..], lists, k);
        FirstLink(n, start, mem[..], freeList[..], lists, k);
      }
    }

    lemma AddressAccepted(y: nat)
      requires Geometry() && Depth(y) <= n
      ensures !Rejected(Address(n, start, y))
    {
      AddressInside(n, start, y, mem.Length);
      PageAddressAligned(start, FirstPage(n, y));
    }
  }
}
