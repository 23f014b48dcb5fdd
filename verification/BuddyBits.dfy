// The bitmap bytes against the set of live blocks, one changed bit at a time.
module BuddyBits {
  import opened BuddyTree
  import opened BuddySteps
  import opened Bitmap

  // A node's bit is set exactly when it is the root or contains a live block.
  ghost predicate BitsShow(s: seq<bv8>, live: set<nat>) {
    forall x: nat :: x < 8 * |s| ==> (BitAt(s, x) <==> Bit(live, x))
  }

  lemma BitsTaken(s: seq<bv8>, t: seq<bv8>, live: set<nat>, x: nat)
    requires BitsShow(s, live) && BitChanged(s, t, x, true) && Separate(live) && Maximal(live, x)
    ensures BitsShow(t, live + {x})
  {
    Take(live, x);
  }

  lemma BitsSplit(s: seq<bv8>, t: seq<bv8>, live: set<nat>, c: nat)
    requires c > 0 && Parent(c) !in live && Separate(live + {Parent(c)})
    requires BitsShow(s, live + {Parent(c)}) && BitChanged(s, t, c, true)
    ensures BitsShow(t, live + {c})
  {
    Child(live, c);
  }

  lemma BitsMerged(s: seq<bv8>, t: seq<bv8>, live: set<nat>, c: nat)
    requires c > 0 && Parent(c) !in live && Separate(live + {Parent(c)})
    requires BitsShow(s, live + {c}) && BitChanged(s, t, c, false)
    ensures BitsShow(t, live + {Parent(c)})
  {
    Child(live, c);
  }

  lemma BitsReleased(s: seq<bv8>, t: seq<bv8>, live: set<nat>, c: nat)
    requires c !in live && Separate(live + {c}) && (c == 0 || Bit(live + {c}, Sibling(c)))
    requires BitsShow(s, live + {c}) && if c == 0 then s == t else BitChanged(s, t, c, false)
    ensures BitsShow(t, live)
  {
    Release(live, c);
  }

  // The bitmap bytes are a function of the live blocks.
  lemma BitsUnique(s: seq<bv8>, t: seq<bv8>, live: set<nat>)
    requires |s| == |t| && BitsShow(s, live) && BitsShow(t, live)
    ensures s == t
  {
    forall i | 0 <= i < |s|
      ensures s[i] == t[i]
    {
      forall j: nat | j < 8
        ensures s[i] & Mask(j) != 0 <==> t[i] & Mask(j) != 0
      {
        assert BitAt(s, 8 * i + j) <==> BitAt(t, 8 * i + j);
      }
      BitsDecideByte(s[i], t[i]);
    }
  }
}
