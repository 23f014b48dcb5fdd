// The fields of slab descriptors as they lie in memory: the free list at offset 16, the memory at 24 and
// the counter, 32 bits wide, at 32.
module SlabRecords {
  import opened BuddyMemory
  import opened Memory64
  import opened DList
  import opened SlabSpec
  import opened SlabMemory
  import opened SlabBlocks

  // The descriptor at a holds info.
  ghost predicate RecordAt(m: seq<byte>, a: nat, info: SlabInfo) {
    a + 36 <= |m| && Word(m, a + 16) == info.freeList && Word(m, a + 24) == info.memory &&
      Half(m, a + 32) == info.objCounter
  }

  ghost predicate Recorded(m: seq<byte>, slabs: map<nat, SlabInfo>) {
    forall a :: a in slabs ==> RecordAt(m, a, slabs[a])
  }

  // The descriptors are the same behind their link words.
  ghost predicate RecordsKept(slabs: map<nat, SlabInfo>, m: seq<byte>, t: seq<byte>) {
    |m| == |t| && forall a :: a in slabs ==> SameBytes(m, t, a + 16, a + 36)
  }

  lemma RecordKept(m: seq<byte>, t: seq<byte>, a: nat, info: SlabInfo)
    requires RecordAt(m, a, info) && SameBytes(m, t, a + 16, a + 36)
    ensures RecordAt(t, a, info)
  {
    forall i | a + 16 <= i < a + 36
      ensures m[i] == t[i]
    {
      assert SameByte(m, t, i);
    }
    LeKept(m, t, a + 16, 8);
    LeKept(m, t, a + 24, 8);
    LeKept(m, t, a + 32, 4);
  }

  lemma RecordedThen(m: seq<byte>, t: seq<byte>, slabs: map<nat, SlabInfo>)
    requires Recorded(m, slabs) && RecordsKept(slabs, m, t)
    ensures Recorded(t, slabs)
  {
    hide RecordAt, SameBytes;
    forall a | a in slabs
      ensures RecordAt(t, a, slabs[a])
    {
      RecordKept(m, t, a, slabs[a]);
    }
  }

  lemma SameKeysKept(slabs: map<nat, SlabInfo>, after: map<nat, SlabInfo>, m: seq<byte>, t: seq<byte>)
    requires RecordsKept(slabs, m, t) && slabs.Keys == after.Keys
    ensures RecordsKept(after, m, t)
  {
    hide SameBytes;
  }

  // ----- who keeps the records

  lemma SubrangeKept(m: seq<byte>, t: seq<byte>, lo: nat, hi: nat, lo': nat, hi': nat)
    requires SameBytes(m, t, lo, hi) && lo <= lo' && hi' <= hi
    ensures SameBytes(m, t, lo', hi')
  {
  }

  lemma LinksKeepRecords(sh: Shape, slabs: map<nat, SlabInfo>, m: seq<byte>, t: seq<byte>)
    requires Spread(sh, slabs, |m|) && OnlyDescriptors(m, t, slabs)
    ensures RecordsKept(slabs, m, t)
  {
    forall a | a in slabs
      ensures SameBytes(m, t, a + 16, a + 36)
    {
      forall i | a + 16 <= i < a + 36
        ensures SameByte(m, t, i)
      {
        forall b | b in slabs
          ensures !(b <= i < b + 16)
        {
          SpreadPair(sh, slabs, a, b, |m|);
        }
        assert !InLinks(slabs, i);
      }
    }
  }

  lemma ObjectsKeepRecords(sh: Shape, slabs: map<nat, SlabInfo>, b: nat, m: seq<byte>, t: seq<byte>, nodes: seq<nat>)
    requires ShapeOk(sh) && Spread(sh, slabs, |m|) && b in slabs && OnlyNodes(m, t, nodes)
    requires AllSlots(sh, slabs[b].memory, nodes)
    ensures RecordsKept(slabs, m, t)
  {
    ObjectWrites(sh, m, t, nodes, slabs, b);
    OnlyNodesLength(m, t, nodes);
    hide SameBytes, Spread, OnlyNodes, AllSlots;
    forall a | a in slabs
      ensures SameBytes(m, t, a + 16, a + 36)
    {
      SubrangeKept(m, t, a, a + 4096, a + 16, a + 36);
    }
  }

  // Whoever keeps the bytes of the cache's blocks keeps its records.
  lemma OwnersKeepRecords(p: Place, live: set<nat>, home: nat, order: nat, sh: Shape, slabs: map<nat, SlabInfo>,
                          m: seq<byte>, t: seq<byte>)
    requires Owns(p, live, home, order, sh, slabs) && Kept(p.n, p.start, m, t, live)
    ensures RecordsKept(slabs, m, t)
  {
    hide SameBytes, LiveAt, Kept;
    KeptLength(p, m, t, live);
    SizeOne();
    forall a | a in slabs
      ensures SameBytes(m, t, a + 16, a + 36)
    {
      LiveKept(p, m, t, live, a, 0);
      SubrangeKept(m, t, a, a + 4096, a + 16, a + 36);
    }
  }

  lemma RecordsOfFewer(m: seq<byte>, slabs: map<nat, SlabInfo>, fewer: map<nat, SlabInfo>)
    requires Recorded(m, slabs) && fewer.Keys <= slabs.Keys && forall a :: a in fewer ==> fewer[a] == slabs[a]
    ensures Recorded(m, fewer)
  {
  }

  lemma RecordsOfMore(m: seq<byte>, slabs: map<nat, SlabInfo>, a: nat, info: SlabInfo)
    requires Recorded(m, slabs) && RecordAt(m, a, info)
    ensures Recorded(m, slabs[a := info])
  {
  }

  lemma NoRecords(m: seq<byte>)
    ensures Recorded(m, map[])
  {
  }
}
