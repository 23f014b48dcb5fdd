// Doubly linked lists whose nodes are struct list_t lying in memory: the next pointer in the first
// word, the previous pointer in the second (list.cpp). A list is the sequence of its node addresses.
module DList {
  import opened Sequences
  import opened Memory64

  function Next(m: seq<byte>, a: nat): nat
    requires a + 16 <= |m|
  {
    Word(m, a)
  }

  function Prev(m: seq<byte>, a: nat): nat
    requires a + 16 <= |m|
  {
    Word(m, a + 8)
  }

  predicate NodesApart(a: nat, b: nat) {
    a + 16 <= b || b + 16 <= a
  }

  // The nodes of s, linked both ways from head on; before is what the first node points back to.
  ghost predicate Linked(m: seq<byte>, before: nat, head: nat, s: seq<nat>)
    decreases |s|
  {
    if s == [] then head == 0
    else
      && head == s[0] && 0 < head && head + 16 <= |m| && head !in s[1..]
      && Prev(m, head) == before && Linked(m, head, Next(m, head), s[1..])
  }

  lemma LinkedEmpty(m: seq<byte>, before: nat)
    ensures Linked(m, before, 0, [])
  {
  }

  lemma LinkedCons(m: seq<byte>, before: nat, s: seq<nat>)
    requires s != [] && 0 < s[0] && s[0] + 16 <= |m| && s[0] !in s[1..]
    requires Prev(m, s[0]) == before && Linked(m, s[0], Next(m, s[0]), s[1..])
    ensures Linked(m, before, s[0], s)
  {
  }

  // The first node of a list and what is left behind it.
  lemma LinkedStep(m: seq<byte>, before: nat, head: nat, s: seq<nat>)
    requires Linked(m, before, head, s)
    ensures head == 0 <==> s == []
    ensures head != 0 ==> s[0] == head && head + 16 <= |m| && Linked(m, head, Next(m, head), s[1..])
    ensures head != 0 ==> forall a :: a in s <==> a == head || a in s[1..]
  {
    if s != [] {
      assert s == [s[0]] + s[1..];
    }
  }

  // Nodes lie in memory and do not overlap.
  ghost predicate Scattered(s: seq<nat>, size: nat) {
    && size <= TWO_TO_64
    && (forall a :: a in s ==> 0 < a && a + 16 <= size)
    && (forall a, b :: a in s && b in s && a != b ==> NodesApart(a, b))
  }

  ghost predicate RoomFor(e: nat, s: seq<nat>, size: nat) {
    0 < e && e + 16 <= size && forall a :: a in s ==> NodesApart(a, e)
  }

  ghost predicate SameNode(m: seq<byte>, t: seq<byte>, a: nat) {
    a + 16 <= |m| == |t| && Next(t, a) == Next(m, a) && Prev(t, a) == Prev(m, a)
  }

  lemma {:induction false} LinkedInMemory(m: seq<byte>, before: nat, head: nat, s: seq<nat>)
    requires Linked(m, before, head, s)
    ensures NoDup(s) && forall a :: a in s ==> 0 < a && a + 16 <= |m|
    decreases |s|
  {
    if s != [] {
      assert forall a: nat :: a in s <==> a == s[0] || a in s[1..];
      LinkedInMemory(m, head, Next(m, head), s[1..]);
    }
  }

  // A list none of whose nodes is touched stays a list.
  lemma {:induction false} LinkedKept(m: seq<byte>, t: seq<byte>, before: nat, head: nat, s: seq<nat>)
    requires Linked(m, before, head, s) && forall a :: a in s ==> SameNode(m, t, a)
    ensures Linked(t, before, head, s)
    decreases |s|
  {
    if s != [] {
      assert forall a: nat :: a in s <==> a == s[0] || a in s[1..];
      assert SameNode(m, t, s[0]);
      LinkedKept(m, t, head, Next(m, head), s[1..]);
    }
  }

  // The pointers of a in t are those in m, with pointers to e redirected past it.
  ghost predicate Redirected(m: seq<byte>, t: seq<byte>, e: nat, a: nat)
    requires e + 16 <= |m| == |t| && a + 16 <= |m|
  {
    && Next(t, a) == (if Next(m, a) == e then Next(m, e) else Next(m, a))
    && Prev(t, a) == (if Prev(m, a) == e then Prev(m, e) else Prev(m, a))
  }

  lemma {:induction false} RedirectPast(m: seq<byte>, t: seq<byte>, e: nat, before: nat, head: nat, s: seq<nat>)
    requires 0 < e && e + 16 <= |m| == |t| && e !in s && Linked(m, before, head, s)
    requires forall a :: a in s ==> a + 16 <= |m| && Redirected(m, t, e, a)
    ensures Linked(t, if before == e then Prev(m, e) else before, head, s)
    decreases |s|
  {
    if s != [] {
      assert forall a: nat :: a in s <==> a == s[0] || a in s[1..];
      assert s[0] in s && s[0] != e;
      RedirectPast(m, t, e, head, Next(m, head), s[1..]);
    }
  }

  lemma {:induction false} RemoveLinked(m: seq<byte>, t: seq<byte>, e: nat, before: nat, head: nat, s: seq<nat>)
    requires 0 < e && e + 16 <= |m| == |t| && e in s && before != e && Linked(m, before, head, s)
    requires forall a :: a in s && a != e ==> a + 16 <= |m| && Redirected(m, t, e, a)
    ensures Linked(t, before, if head == e then Next(m, e) else head, Without(s, e))
    decreases |s|
  {
    assert forall a: nat :: a in s <==> a == s[0] || a in s[1..];
    if s[0] == e {
      RedirectPast(m, t, e, e, Next(m, e), s[1..]);
    } else {
      RemoveLinked(m, t, e, head, Next(m, head), s[1..]);
      assert s[0] in s;
      assert head !in Without(s[1..], e) by {
        WithoutSubset(s[1..], e);
      }
      assert Without(s, e)[1..] == Without(s[1..], e);
    }
  }

  lemma {:induction false} WithoutSubset(s: seq<nat>, v: nat)
    ensures forall x :: x in Without(s, v) ==> x in s
  {
    if s != [] {
      WithoutSubset(s[1..], v);
    }
  }

  lemma PushLinked(m: seq<byte>, t: seq<byte>, head: nat, s: seq<nat>, e: nat)
    requires Linked(m, 0, head, s) && 0 < e && e + 16 <= |m| == |t| && e !in s
    requires Next(t, e) == head && Prev(t, e) == 0
    requires s != [] ==> Next(t, head) == Next(m, head) && Prev(t, head) == e
    requires forall a :: a in s && a != head ==> SameNode(m, t, a)
    ensures Linked(t, 0, e, [e] + s)
  {
    assert ([e] + s)[1..] == s;
    if s != [] {
      LinkedKept(m, t, head, Next(m, head), s[1..]);
    }
  }

  lemma {:induction false} NextStays(m: seq<byte>, before: nat, head: nat, s: seq<nat>, a: nat)
    requires Linked(m, before, head, s) && a in s
    ensures a + 16 <= |m| && (Next(m, a) == 0 || Next(m, a) in s[1..])
    decreases |s|
  {
    if a != s[0] {
      NextStays(m, head, Next(m, head), s[1..], a);
    }
  }

  lemma {:induction false} PrevStays(m: seq<byte>, before: nat, head: nat, s: seq<nat>, a: nat)
    requires Linked(m, before, head, s) && a in s
    ensures a + 16 <= |m| && if a == head then Prev(m, a) == before else Prev(m, a) in s
    decreases |s|
  {
    if a != s[0] {
      PrevStays(m, head, Next(m, head), s[1..], a);
    }
  }

  // Next and previous pointers undo each other.
  lemma {:induction false} Neighbours(m: seq<byte>, before: nat, head: nat, s: seq<nat>, e: nat)
    requires Linked(m, before, head, s) && e in s && before !in s
    ensures e + 16 <= |m| && forall a :: a in s ==> 0 < a && a + 16 <= |m|
    ensures if e == head then Prev(m, e) == before else Prev(m, e) in s && Next(m, Prev(m, e)) == e
    ensures Next(m, e) == 0 || (Next(m, e) in s && Prev(m, Next(m, e)) == e)
    ensures forall a :: a in s && Next(m, a) == e ==> a == Prev(m, e)
    ensures forall a :: a in s && Prev(m, a) == e ==> a == Next(m, e)
    decreases |s|
  {
    LinkedInMemory(m, before, head, s);
    var n, tail := Next(m, head), s[1..];
    assert forall a: nat :: a in s <==> a == head || a in tail;
    if e == head {
      forall a | a in tail
        ensures Next(m, a) != e && (Prev(m, a) == e ==> a == n)
      {
        NextStays(m, head, n, tail, a);
        PrevStays(m, head, n, tail, a);
      }
    } else {
      Neighbours(m, head, n, tail, e);
    }
  }

  ghost predicate InNode(s: seq<nat>, i: int) {
    exists a :: a in s && a <= i < a + 16
  }

  // Only bytes of nodes of s differ.
  ghost predicate OnlyNodes(m: seq<byte>, t: seq<byte>, s: seq<nat>) {
    |m| == |t| && forall i {:trigger InNode(s, i)} :: 0 <= i < |m| && !InNode(s, i) ==> m[i] == t[i]
  }

  lemma NodeUntouched(m: seq<byte>, t: seq<byte>, s: seq<nat>, a: nat)
    requires OnlyNodes(m, t, s) && a + 16 <= |m| && forall b :: b in s ==> NodesApart(b, a)
    ensures SameNode(m, t, a)
  {
    forall i | a <= i < a + 16
      ensures m[i] == t[i]
    {
      assert !InNode(s, i);
    }
    LeKept(m, t, a, 8);
    LeKept(m, t, a + 8, 8);
  }

  lemma NodeOutside(m: seq<byte>, t: seq<byte>, a: nat, b: nat)
    requires SameOutside(m, t, a, a + 16) && b + 16 <= |m| && NodesApart(a, b)
    ensures SameNode(m, t, b)
  {
    WordsKept(m, t, a, a + 16);
  }

  lemma OneWrite(m: seq<byte>, t: seq<byte>, a: nat)
    requires SameOutside(m, t, a, a + 16)
    ensures OnlyNodes(m, t, [a])
  {
    assert a in [a];
  }

  lemma TwoWrites(m: seq<byte>, u: seq<byte>, t: seq<byte>, a: nat, b: nat)
    requires SameOutside(m, u, a, a + 16) && SameOutside(u, t, b, b + 16)
    ensures OnlyNodes(m, t, [a, b])
  {
    assert a in [a, b] && b in [a, b];
  }

  method SetNext(mem: array<byte>, a: nat, v: nat)
    requires a + 16 <= mem.Length && v < TWO_TO_64
    modifies mem
    ensures Next(mem[..], a) == v && Prev(mem[..], a) == Prev(old(mem[..]), a)
    ensures SameOutside(old(mem[..]), mem[..], a, a + 16)
  {
    Store64(mem, a, v);
    WordsKept(old(mem[..]), mem[..], a, a + 8);
  }

  method SetPrev(mem: array<byte>, a: nat, v: nat)
    requires a + 16 <= mem.Length && v < TWO_TO_64
    modifies mem
    ensures Prev(mem[..], a) == v && Next(mem[..], a) == Next(old(mem[..]), a)
    ensures SameOutside(old(mem[..]), mem[..], a, a + 16)
  {
    Store64(mem, a + 8, v);
    WordsKept(old(mem[..]), mem[..], a + 8, a + 16);
  }

  method SetNode(mem: array<byte>, a: nat, next: nat, prev: nat)
    requires a + 16 <= mem.Length && next < TWO_TO_64 && prev < TWO_TO_64
    modifies mem
    ensures Next(mem[..], a) == next && Prev(mem[..], a) == prev
    ensures SameOutside(old(mem[..]), mem[..], a, a + 16)
  {
    SetNext(mem, a, next);
    SetPrev(mem, a, prev);
  }

  // ----- list_push, list_remove and list_pop; each returns the new value of the list head

  lemma PushWritten(m: seq<byte>, t: seq<byte>, head: nat, s: seq<nat>, e: nat)
    requires Linked(m, 0, head, s) && Scattered(s, |m|) && RoomFor(e, s, |m|)
    requires OnlyNodes(m, t, if head == 0 then [e] else [e, head]) && Next(t, e) == head && Prev(t, e) == 0
    requires head != 0 ==> head + 16 <= |m| && Next(t, head) == Next(m, head) && Prev(t, head) == e
    ensures Linked(t, 0, e, [e] + s)
  {
    if s != [] {
      assert head in s && s[0] in s;
      forall a | a in s && a != head
        ensures SameNode(m, t, a)
      {
        assert NodesApart(a, e) && NodesApart(a, head);
        NodeUntouched(m, t, [e, head], a);
      }
    }
    assert e !in s;
    PushLinked(m, t, head, s, e);
  }

  method ListPush(mem: array<byte>, list: nat, entry: nat, ghost s: seq<nat>) returns (head: nat)
    requires Linked(mem[..], 0, list, s) && Scattered(s, mem.Length) && RoomFor(entry, s, mem.Length)
    modifies mem
    ensures head == entry && Linked(mem[..], 0, head, [entry] + s)
    ensures OnlyNodes(old(mem[..]), mem[..], if s == [] then [entry] else [entry, s[0]])
  {
    ghost var m := mem[..];
    if list == 0 {
      SetNode(mem, entry, 0, 0);
      OneWrite(m, mem[..], entry);
    } else {
      assert list in s;
      SetNode(mem, entry, list, 0);
      ghost var u := mem[..];
      SetPrev(mem, list, entry);
      NodeOutside(m, u, entry, list);
      NodeOutside(u, mem[..], list, entry);
      TwoWrites(m, u, mem[..], entry, list);
    }
    head := entry;
    PushWritten(m, mem[..], list, s, entry);
  }

  // The three writes that take e out of its list: the previous node, the next node, e itself.
  ghost predicate Unlinked(m: seq<byte>, m1: seq<byte>, m2: seq<byte>, t: seq<byte>, e: nat, p: nat, n: nat) {
    && e + 16 <= |m| == |m1| == |m2| == |t| && p == Prev(m, e) && n == Next(m, e)
    && (if p == 0 then m1 == m
        else p + 16 <= |m| && SameOutside(m, m1, p, p + 16) && Next(m1, p) == n && Prev(m1, p) == Prev(m, p))
    && (if n == 0 then m2 == m1
        else n + 16 <= |m| && SameOutside(m1, m2, n, n + 16) && Next(m2, n) == Next(m1, n) && Prev(m2, n) == p)
    && SameOutside(m2, t, e, e + 16)
  }

  lemma UnlinkedNode(m: seq<byte>, m1: seq<byte>, m2: seq<byte>, t: seq<byte>, e: nat, p: nat, n: nat, a: nat)
    requires Unlinked(m, m1, m2, t, e, p, n) && a + 16 <= |m| && NodesApart(a, e)
    requires (p != 0 && a != p ==> NodesApart(a, p)) && (n != 0 && a != n ==> NodesApart(a, n))
    ensures Next(t, a) == (if p != 0 && a == p then n else Next(m, a))
    ensures Prev(t, a) == (if n != 0 && a == n then p else Prev(m, a))
  {
    if p != 0 && a != p {
      NodeOutside(m, m1, p, a);
    }
    if n != 0 && a != n {
      NodeOutside(m1, m2, n, a);
    }
    NodeOutside(m2, t, e, a);
  }

  lemma RemoveWritten(m: seq<byte>, m1: seq<byte>, m2: seq<byte>, t: seq<byte>, head: nat, s: seq<nat>, e: nat,
                      p: nat, n: nat)
    requires Linked(m, 0, head, s) && Scattered(s, |m|) && e in s && Unlinked(m, m1, m2, t, e, p, n)
    ensures Linked(t, 0, if head == e then n else head, Without(s, e))
  {
    LinkedInMemory(m, 0, head, s);
    Neighbours(m, 0, head, s, e);
    forall a | a in s && a != e
      ensures a + 16 <= |m| && Redirected(m, t, e, a)
    {
      UnlinkedNode(m, m1, m2, t, e, p, n, a);
    }
    RemoveLinked(m, t, e, 0, head, s);
  }

  lemma UnlinkedOnly(m: seq<byte>, m1: seq<byte>, m2: seq<byte>, t: seq<byte>, head: nat, s: seq<nat>, e: nat, p: nat,
                     n: nat)
    requires Linked(m, 0, head, s) && e in s && Unlinked(m, m1, m2, t, e, p, n)
    ensures OnlyNodes(m, t, s)
  {
    hide *;
    LinkedInMemory(m, 0, head, s);
    Neighbours(m, 0, head, s, e);
    UnlinkedParts(m, m1, m2, t, e, p, n);
    ThreeWrites(m, m1, m2, t, s, e, p, n);
  }

  lemma UnlinkedParts(m: seq<byte>, m1: seq<byte>, m2: seq<byte>, t: seq<byte>, e: nat, p: nat, n: nat)
    requires Unlinked(m, m1, m2, t, e, p, n)
    ensures e + 16 <= |m| && p == Prev(m, e) && n == Next(m, e)
    ensures if p == 0 then m1 == m else SameOutside(m, m1, p, p + 16)
    ensures if n == 0 then m2 == m1 else SameOutside(m1, m2, n, n + 16)
    ensures SameOutside(m2, t, e, e + 16)
  {
    hide Le, Next, Prev, SameOutside;
  }

  lemma ThreeWrites(m: seq<byte>, m1: seq<byte>, m2: seq<byte>, t: seq<byte>, s: seq<nat>, e: nat, p: nat, n: nat)
    requires if p == 0 then m1 == m else p in s && SameOutside(m, m1, p, p + 16)
    requires if n == 0 then m2 == m1 else n in s && SameOutside(m1, m2, n, n + 16)
    requires e in s && SameOutside(m2, t, e, e + 16)
    ensures OnlyNodes(m, t, s)
  {
    forall i | 0 <= i < |m| && !InNode(s, i)
      ensures m[i] == t[i]
    {
    }
  }

  lemma NeighbourPlaces(m: seq<byte>, head: nat, s: seq<nat>, e: nat)
    requires Linked(m, 0, head, s) && Scattered(s, |m|) && e in s
    ensures 0 < e && e + 16 <= |m| <= TWO_TO_64
    ensures Prev(m, e) == 0 || (Prev(m, e) + 16 <= |m| && NodesApart(Prev(m, e), e))
    ensures Next(m, e) == 0 || (Next(m, e) + 16 <= |m| && NodesApart(Next(m, e), e))
    ensures head == e ==> Prev(m, e) == 0
  {
    LinkedInMemory(m, 0, head, s);
    Neighbours(m, 0, head, s, e);
    if Prev(m, e) == e || Next(m, e) == e {
      NextStays(m, 0, head, s, e);
      SelfNotNext(m, 0, head, s, e);
    }
  }

  lemma {:induction false} SelfNotNext(m: seq<byte>, before: nat, head: nat, s: seq<nat>, e: nat)
    requires Linked(m, before, head, s) && e in s
    ensures e + 16 <= |m| && Next(m, e) != e
    decreases |s|
  {
    if e == s[0] {
      LinkedInMemory(m, head, Next(m, head), s[1..]);
    } else {
      SelfNotNext(m, head, Next(m, head), s[1..], e);
    }
  }

  // Removing a node of the list; an empty list or a null entry changes nothing.
  lemma NoneWritten(m: seq<byte>, s: seq<nat>)
    ensures OnlyNodes(m, m, s)
  {
  }

  method ListRemove(mem: array<byte>, list: nat, entry: nat, ghost s: seq<nat>) returns (head: nat)
    requires Linked(mem[..], 0, list, s) && Scattered(s, mem.Length)
    requires entry == 0 || s == [] || entry in s
    modifies mem
    ensures Linked(mem[..], 0, head, Without(s, entry)) && OnlyNodes(old(mem[..]), mem[..], s)
    ensures entry in s ==> Next(mem[..], entry) == 0 && Prev(mem[..], entry) == 0
  {
    hide Linked, Le, OnlyNodes, Scattered, Without;
    ghost var m := mem[..];
    LinkedInMemory(m, 0, list, s);
    LinkedStep(m, 0, list, s);
    if list == 0 || entry == 0 {
      WithoutAbsent(s, entry);
      NoneWritten(m, s);
      return list;
    }
    NeighbourPlaces(m, list, s, entry);
    var next := Load64(mem, entry);
    var prev := Load64(mem, entry + 8);
    head := if list == entry then next else list;
    if prev != 0 {
      SetNext(mem, prev, next);
    }
    ghost var m1 := mem[..];
    if next != 0 {
      SetPrev(mem, next, prev);
    }
    ghost var m2 := mem[..];
    SetNode(mem, entry, 0, 0);
    RemoveWritten(m, m1, m2, mem[..], list, s, entry, prev, next);
    UnlinkedOnly(m, m1, m2, mem[..], list, s, entry, prev, next);
  }

  // Takes the first node off the list; 0 when there is none.
  method ListPop(mem: array<byte>, list: nat, ghost s: seq<nat>) returns (entry: nat, head: nat)
    requires Linked(mem[..], 0, list, s) && Scattered(s, mem.Length)
    modifies mem
    ensures s == [] ==> entry == 0 && head == 0 && mem[..] == old(mem[..])
    ensures s != [] ==> entry == s[0] && Linked(mem[..], 0, head, s[1..])
    ensures OnlyNodes(old(mem[..]), mem[..], s)
  {
    if list == 0 {
      return 0, list;
    }
    ghost var m := mem[..];
    entry := list;
    assert entry in s;
    NeighbourPlaces(m, list, s, entry);
    head := Load64(mem, list);
    if head != 0 {
      SetPrev(mem, head, 0);
    }
    ghost var m2 := mem[..];
    SetNode(mem, entry, 0, 0);
    RemoveWritten(m, m, m2, mem[..], list, s, entry, 0, head);
    UnlinkedOnly(m, m, m2, mem[..], list, s, entry, 0, head);
  }
}
