// Singly linked lists threaded through the first word of their blocks (freelist_insert and
// remove_from_freelist in buddy.cpp). A list is the sequence of the addresses on it.
module FreeLists {
  import opened Sequences
  import opened Memory64

  // The address of element j of the list; 0 past its end.
  function Link(l: seq<nat>, j: nat): nat {
    if j < |l| then l[j] else 0
  }

  // Places for a link word: in memory, not at address 0, and not overlapping.
  ghost predicate Spaced(l: seq<nat>, size: nat) {
    && size <= TWO_TO_64
    && (forall j :: 0 <= j < |l| ==> 0 < l[j] && l[j] + 8 <= size)
    && (forall i, j :: 0 <= i < j < |l| ==> l[i] + 8 <= l[j] || l[j] + 8 <= l[i])
  }

  // One more place, for the address a.
  ghost predicate Fits(a: nat, l: seq<nat>, size: nat) {
    0 < a && a + 8 <= size && forall j :: 0 <= j < |l| ==> l[j] + 8 <= a || a + 8 <= l[j]
  }

  // The words in m thread the list l, starting from head.
  ghost predicate Chain(m: seq<byte>, head: nat, l: seq<nat>) {
    && Spaced(l, |m|)
    && head == Link(l, 0)
    && forall j {:trigger Word(m, l[j])} :: 0 <= j < |l| ==> Word(m, l[j]) == Link(l, j + 1)
  }

  // A chain none of whose words is written stays a chain.
  lemma ChainKept(m: seq<byte>, t: seq<byte>, head: nat, l: seq<nat>, lo: nat)
    requires Chain(m, head, l) && SameOutside(m, t, lo, lo + 8)
    requires forall j :: 0 <= j < |l| ==> l[j] + 8 <= lo || lo + 8 <= l[j]
    ensures Chain(t, head, l)
  {
    WordsKept(m, t, lo, lo + 8);
  }

  lemma ChainPush(m: seq<byte>, t: seq<byte>, head: nat, l: seq<nat>, a: nat)
    requires Chain(m, head, l) && Fits(a, l, |m|) && SameOutside(m, t, a, a + 8)
    requires Word(t, a) == head
    ensures Chain(t, a, [a] + l)
  {
    ChainKept(m, t, head, l, a);
    assert forall j :: 0 < j < |l| + 1 ==> ([a] + l)[j] == l[j - 1];
  }

  lemma ChainPop(m: seq<byte>, head: nat, l: seq<nat>)
    requires Chain(m, head, l) && l != []
    ensures head == l[0] && Chain(m, Word(m, head), l[1..])
  {
  }

  // Unlinking element i > 0 by rewriting the word of its predecessor.
  lemma ChainUnlink(m: seq<byte>, t: seq<byte>, head: nat, l: seq<nat>, i: nat)
    requires Chain(m, head, l) && 0 < i < |l| && SameOutside(m, t, l[i - 1], l[i - 1] + 8)
    requires Word(t, l[i - 1]) == Link(l, i + 1)
    ensures Chain(t, head, l[..i] + l[i + 1..])
  {
    WordsKept(m, t, l[i - 1], l[i - 1] + 8);
  }

  // Element i of a chain and the word that links it.
  lemma ChainAt(m: seq<byte>, head: nat, l: seq<nat>, i: nat)
    requires Chain(m, head, l)
    ensures head == Link(l, 0) && |m| <= TWO_TO_64
    ensures i < |l| ==> 0 < l[i] && l[i] + 8 <= |m| && Word(m, l[i]) == Link(l, i + 1) < TWO_TO_64
  {
    hide Le;
  }

  method FreelistInsert(mem: array<byte>, freeList: array<nat>, entry: nat, address: nat, ghost l: seq<nat>)
    requires entry < freeList.Length && Chain(mem[..], freeList[entry], l) && Fits(address, l, mem.Length)
    modifies mem, freeList
    ensures Chain(mem[..], freeList[entry], [address] + l)
    ensures Word(mem[..], address) == old(freeList[entry])
    ensures freeList[..] == old(freeList[..])[entry := address]
    ensures SameOutside(old(mem[..]), mem[..], address, address + 8)
  {
    var listBegin := freeList[entry];
    Store64(mem, address, listBegin);
    ChainPush(old(mem[..]), mem[..], listBegin, l, address);
    listBegin := address;
    freeList[entry] := listBegin;
  }

  lemma FirstWithout(l: seq<nat>)
    requires l != []
    ensures Without(l, l[0]) == l[1..]
  {
  }

  // Takes address off the list; an address that is not on the list changes nothing.
  method RemoveFromFreelist(mem: array<byte>, freeList: array<nat>, entry: nat, address: nat, ghost l: seq<nat>)
    requires entry < freeList.Length && Chain(mem[..], freeList[entry], l) && 0 < address
    requires address + 8 <= mem.Length
    modifies mem, freeList
    ensures Chain(mem[..], freeList[entry], Without(l, address))
    ensures freeList[..] == old(freeList[..])[entry := freeList[entry]]
    ensures mem[..] == old(mem[..]) || exists j :: 0 <= j < |l| && SameOutside(old(mem[..]), mem[..], l[j], l[j] + 8)
    ensures address !in l ==> mem[..] == old(mem[..]) && freeList[..] == old(freeList[..])
  {
    hide Chain, Le, SameOutside, Without;
    var cursor := freeList[entry];
    ChainAt(mem[..], cursor, l, 0);
    if cursor == address {
      ChainPop(mem[..], cursor, l);
      FirstWithout(l);
      var next := Load64(mem, address);
      freeList[entry] := next;
      return;
    }
    ghost var i := 0;
    while cursor != 0
      invariant mem[..] == old(mem[..]) && freeList[..] == old(freeList[..])
      invariant 0 <= i <= |l| && cursor == Link(l, i) && (cursor == 0 <==> i == |l|) && address !in l[..i]
      invariant i < |l| ==> l[i] != address
      decreases |l| - i
    {
      ChainAt(mem[..], freeList[entry], l, i);
      ChainAt(mem[..], freeList[entry], l, i + 1);
      var next := Load64(mem, cursor);
      if next == address {
        var after := Load64(mem, address);
        assert l[i + 1] == address;
        assert address !in l[..i + 1];
        WithoutAt(l, i + 1);
        Store64(mem, cursor, after);
        ChainUnlink(old(mem[..]), mem[..], freeList[entry], l, i + 1);
        break;
      }
      cursor := next;
      i := i + 1;
    }
    if address !in l {
      WithoutAbsent(l, address);
    }
  }
}
