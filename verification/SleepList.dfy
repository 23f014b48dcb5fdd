// The list of sleeping threads: each entry holds the ticks left after those of the entries before it.
module SleepList {
  import opened Sequences

  datatype Nap = Nap(id: nat, left: nat)

  function Ids(l: seq<Nap>): (s: seq<nat>)
    ensures |s| == |l| && forall i :: 0 <= i < |l| ==> s[i] == l[i].id
  {
    seq(|l|, i requires 0 <= i < |l| => l[i].id)
  }

  // findPlaceToSleep and the insertion after the place it found.
  function Insert(l: seq<Nap>, id: nat, t: nat): seq<Nap> {
    if l == [] then [Nap(id, t)]
    else if l[0].left > t then [Nap(id, t), Nap(l[0].id, l[0].left - t)] + l[1..]
    else if l[0].left == t then [l[0], Nap(id, 0)] + l[1..]
    else [l[0]] + Insert(l[1..], id, t - l[0].left)
  }

  // The entries whose time is up, and the others.
  function Due(l: seq<Nap>): (r: (seq<nat>, seq<Nap>)) {
    if l == [] || l[0].left > 0 then ([], l)
    else var (woken, rest) := Due(l[1..]); ([l[0].id] + woken, rest)
  }

  // One timer tick: only the first entry is decremented; an unsigned zero would wrap around.
  function Ticked(l: seq<Nap>): seq<Nap> {
    if l == [] then []
    else [Nap(l[0].id, if l[0].left == 0 then 0xFFFF_FFFF_FFFF_FFFF else l[0].left - 1)] + l[1..]
  }

  // Between ticks somebody sleeping has at least one tick to go.
  ghost predicate HeadPositive(l: seq<Nap>) {
    l != [] ==> l[0].left > 0
  }

  // ----- the map of remaining ticks that the list stands for

  function Left(l: seq<Nap>, id: nat): nat {
    if l == [] then 0
    else if l[0].id == id then l[0].left
    else l[0].left + Left(l[1..], id)
  }

  function Remaining(l: seq<Nap>): map<nat, nat> {
    map x | x in Ids(l) :: Left(l, x)
  }

  lemma IdsCons(l: seq<Nap>)
    requires l != []
    ensures forall x: nat :: x in Ids(l) <==> x == l[0].id || x in Ids(l[1..])
    ensures Ids(l)[1..] == Ids(l[1..]) && Ids(l)[0] == l[0].id
  {
  }

  lemma {:induction false} InsertIds(l: seq<Nap>, id: nat, t: nat)
    ensures forall x: nat :: x in Ids(Insert(l, id, t)) <==> x == id || x in Ids(l)
    ensures |Insert(l, id, t)| == |l| + 1
  {
    var r := Insert(l, id, t);
    IdsCons(r);
    if l == [] {
    } else {
      IdsCons(l);
      if l[0].left > t {
        IdsCons(r[1..]);
        assert r[1..][1..] == l[1..];
      } else if l[0].left == t {
        IdsCons(r[1..]);
        assert r[1..][1..] == l[1..];
      } else {
        InsertIds(l[1..], id, t - l[0].left);
        assert r[1..] == Insert(l[1..], id, t - l[0].left);
      }
    }
  }

  // The new sleeper has t ticks to go, everybody else as many as before.
  lemma {:induction false} InsertLeft(l: seq<Nap>, id: nat, t: nat, x: nat)
    requires id !in Ids(l)
    ensures Left(Insert(l, id, t), id) == t
    ensures x in Ids(l) ==> Left(Insert(l, id, t), x) == Left(l, x)
  {
    var r := Insert(l, id, t);
    if l == [] {
    } else {
      IdsCons(l);
      if l[0].left > t || l[0].left == t {
        assert r[1..][1..] == l[1..];
      } else {
        InsertLeft(l[1..], id, t - l[0].left, x);
        assert r[1..] == Insert(l[1..], id, t - l[0].left);
      }
    }
  }

  // Inserting into the list adds one entry to the map.
  lemma InsertRefines(l: seq<Nap>, id: nat, t: nat)
    requires id !in Ids(l)
    ensures Remaining(Insert(l, id, t)) == Remaining(l)[id := t]
  {
    InsertIds(l, id, t);
    forall x | x in Remaining(l)[id := t]
      ensures Remaining(Insert(l, id, t))[x] == Remaining(l)[id := t][x]
    {
      InsertLeft(l, id, t, x);
    }
  }

  lemma {:induction false} InsertNoDup(l: seq<Nap>, id: nat, t: nat)
    requires NoDup(Ids(l)) && id !in Ids(l)
    ensures NoDup(Ids(Insert(l, id, t)))
  {
    hide *;
    InsertCases(l, id, t);
    if l == [] {
      AloneNoDup(Insert(l, id, t));
    } else {
      IdsCons(l);
      TailMember(Ids(l));
      if l[0].left >= t {
        FrontNoDup(Insert(l, id, t));
      } else {
        InsertNoDup(l[1..], id, t - l[0].left);
        InsertIds(l[1..], id, t - l[0].left);
        ConsNoDup(Insert(l, id, t));
      }
    }
  }

  lemma InsertCases(l: seq<Nap>, id: nat, t: nat)
    ensures var r := Insert(l, id, t);
            if l == [] then r == [Nap(id, t)]
            else if l[0].left >= t then
              && |r| >= 2 && r[1..][1..] == l[1..]
              && ((r[0].id == id && r[1..][0].id == l[0].id) || (r[0].id == l[0].id && r[1..][0].id == id))
            else r != [] && r[0] == l[0] && r[1..] == Insert(l[1..], id, t - l[0].left)
  {
  }

  lemma AloneNoDup(l: seq<Nap>)
    requires |l| == 1
    ensures NoDup(Ids(l))
  {
  }

  // Two more in front of a list that has neither.
  lemma FrontNoDup(l: seq<Nap>)
    requires |l| >= 2 && NoDup(Ids(l[1..][1..])) && l[0].id != l[1..][0].id
    requires l[0].id !in Ids(l[1..][1..]) && l[1..][0].id !in Ids(l[1..][1..])
    ensures NoDup(Ids(l))
  {
    hide *;
    ConsNoDup(l[1..]);
    IdsCons(l[1..]);
    ConsNoDup(l);
  }

  lemma ConsNoDup(l: seq<Nap>)
    requires l != [] && NoDup(Ids(l[1..])) && l[0].id !in Ids(l[1..])
    ensures NoDup(Ids(l))
  {
    IdsCons(l);
    assert Ids(l) == [l[0].id] + Ids(l[1..]);
  }

  lemma InsertHead(l: seq<Nap>, id: nat, t: nat)
    requires t > 0 && HeadPositive(l)
    ensures HeadPositive(Insert(l, id, t))
  {
  }

  // Woken and rest are the list cut in two.
  lemma {:induction false} DueParts(l: seq<Nap>)
    ensures Ids(l) == Due(l).0 + Ids(Due(l).1) && HeadPositive(Due(l).1)
  {
    hide Ids;
    DueCut(l);
    if l == [] || l[0].left > 0 {
      assert [] + Ids(l) == Ids(l);
    } else {
      DueParts(l[1..]);
      IdsFront(l);
      assert [l[0].id] + (Due(l[1..]).0 + Ids(Due(l[1..]).1)) == [l[0].id] + Due(l[1..]).0 + Ids(Due(l[1..]).1);
    }
  }

  lemma DueCut(l: seq<Nap>)
    ensures l == [] || l[0].left > 0 ==> Due(l).0 == [] && Due(l).1 == l
    ensures l != [] && l[0].left == 0 ==> Due(l).0 == [l[0].id] + Due(l[1..]).0 && Due(l).1 == Due(l[1..]).1
  {
  }

  lemma IdsFront(l: seq<Nap>)
    requires l != []
    ensures Ids(l) == [l[0].id] + Ids(l[1..])
  {
  }

  // The woken had nothing left.
  lemma {:induction false} DueZero(l: seq<Nap>, x: nat)
    requires x in Due(l).0
    ensures Left(l, x) == 0
  {
    DueCut(l);
    hide Due, Ids;
    if l != [] && l[0].left == 0 && x != l[0].id {
      DueZero(l[1..], x);
    }
  }

  // Those that sleep on keep what they have.
  lemma {:induction false} DueLeft(l: seq<Nap>, x: nat)
    requires NoDup(Ids(l)) && x in Ids(Due(l).1)
    ensures Left(l, x) == Left(Due(l).1, x)
  {
    if l != [] && l[0].left == 0 {
      IdsCons(l);
      TailMember(Ids(l));
      DueParts(l[1..]);
      hide NoDup, Ids;
      DueLeft(l[1..], x);
      assert x in Ids(l[1..]);
    }
  }

  lemma {:induction false} LeftPositive(l: seq<Nap>, x: nat)
    requires HeadPositive(l) && x in Ids(l)
    ensures Left(l, x) > 0
  {
    if l[0].id != x {
      IdsCons(l);
    }
  }

  lemma TickedParts(l: seq<Nap>, x: nat)
    requires HeadPositive(l) && x in Ids(l)
    ensures Ids(Ticked(l)) == Ids(l) && Left(Ticked(l), x) == Left(l, x) - 1
  {
    assert Ticked(l)[1..] == l[1..];
    LeftPositive(l, x);
  }

  lemma TickedIds(l: seq<Nap>)
    ensures Ids(Ticked(l)) == Ids(l)
  {
  }

  // The fate of one sleeper at a tick.
  lemma TickOne(l: seq<Nap>, x: nat)
    requires HeadPositive(l) && NoDup(Ids(l))
    ensures x in Due(Ticked(l)).0 <==> x in Ids(l) && Left(l, x) == 1
    ensures x in Ids(Due(Ticked(l)).1) <==> x in Ids(l) && Left(l, x) > 1
    ensures x in Ids(Due(Ticked(l)).1) ==> Left(Due(Ticked(l)).1, x) == Left(l, x) - 1
  {
    hide *;
    TickCut(l);
    var woken, rest := Due(Ticked(l)).0, Due(Ticked(l)).1;
    assert x in Ids(l) <==> x in woken || x in Ids(rest);
    if x in Ids(l) {
      TickedParts(l, x);
      if x in Ids(rest) {
        TickedIds(l);
        DueLeft(Ticked(l), x);
        LeftPositive(rest, x);
      } else {
        DueZero(Ticked(l), x);
      }
    }
  }

  // A tick cuts the list in two.
  lemma TickCut(l: seq<Nap>)
    requires NoDup(Ids(l))
    ensures var (woken, rest) := Due(Ticked(l));
            woken + Ids(rest) == Ids(l) && HeadPositive(rest) && NoDup(Ids(rest)) && NoDup(woken)
            && forall x: nat :: x in woken ==> x !in Ids(rest)
  {
    hide *;
    TickedIds(l);
    DueParts(Ticked(l));
    PartsNoDup(Due(Ticked(l)).0, Ids(Due(Ticked(l)).1));
  }

  // One tick takes one off every sleeper's remaining ticks; exactly those with none left are woken.
  lemma TickRefines(l: seq<Nap>)
    requires HeadPositive(l) && NoDup(Ids(l))
    ensures var (woken, rest) := Due(Ticked(l));
            && (forall x: nat :: x in woken <==> x in Ids(l) && Left(l, x) == 1)
            && Remaining(rest) == (map x | x in Ids(l) && Left(l, x) > 1 :: Left(l, x) - 1)
            && HeadPositive(rest) && NoDup(Ids(rest)) && NoDup(woken) && woken + Ids(rest) == Ids(l)
  {
    hide Due, Ticked, Left, NoDup, HeadPositive, Ids;
    TickCut(l);
    forall x: nat
      ensures x in Due(Ticked(l)).0 <==> x in Ids(l) && Left(l, x) == 1
      ensures x in Ids(Due(Ticked(l)).1) <==> x in Ids(l) && Left(l, x) > 1
      ensures x in Ids(Due(Ticked(l)).1) ==> Left(Due(Ticked(l)).1, x) == Left(l, x) - 1
    {
      TickOne(l, x);
    }
  }

  lemma PartsNoDup(a: seq<nat>, b: seq<nat>)
    requires NoDup(a + b)
    ensures NoDup(a) && NoDup(b) && forall x: nat :: x in a ==> x !in b
  {
    forall i, j | 0 <= i < j < |b|
      ensures b[i] != b[j]
    {
      assert (a + b)[|a| + i] == b[i] && (a + b)[|a| + j] == b[j];
    }
    forall i, j | 0 <= i < |a| && 0 <= j < |b|
      ensures a[i] != b[j]
    {
      assert (a + b)[i] == a[i] && (a + b)[|a| + j] == b[j];
    }
    forall i, j | 0 <= i < j < |a|
      ensures a[i] != a[j]
    {
      assert (a + b)[i] == a[i] && (a + b)[j] == a[j];
    }
  }

  // ----- insertion as the program does it: the place first, then the links

  function Lowered(l: seq<Nap>, r: nat): seq<Nap> {
    if l == [] then [] else [Nap(l[0].id, if l[0].left >= r then l[0].left - r else 0)] + l[1..]
  }

  // A new entry at position i with r ticks of its own; the one behind it has r fewer.
  function InsertedAt(l: seq<Nap>, i: nat, id: nat, r: nat): seq<Nap> {
    if i <= |l| then l[..i] + [Nap(id, r)] + Lowered(l[i..], r) else l
  }

  // The search has passed i entries and r ticks are left to place.
  ghost predicate Searching(l: seq<Nap>, id: nat, t: nat, i: nat, r: nat) {
    i <= |l| && Insert(l, id, t) == l[..i] + Insert(l[i..], id, r)
  }

  lemma SearchStart(l: seq<Nap>, id: nat, t: nat)
    ensures Searching(l, id, t, 0, t)
  {
    assert l[0..] == l && l[..0] == [];
  }

  lemma SearchOn(l: seq<Nap>, id: nat, t: nat, i: nat, r: nat)
    requires Searching(l, id, t, i, r) && i < |l| && l[i].left < r
    ensures Searching(l, id, t, i + 1, r - l[i].left)
  {
    assert l[i..][0] == l[i] && l[i..][1..] == l[i + 1..];
    assert l[..i] + ([l[i]] + Insert(l[i + 1..], id, r - l[i].left)) == l[..i + 1] +
           Insert(l[i + 1..], id, r - l[i].left);
  }

  lemma InsertHere(m: seq<Nap>, id: nat, r: nat)
    requires m == [] || m[0].left >= r
    ensures m == [] || m[0].left > r ==> Insert(m, id, r) == InsertedAt(m, 0, id, r)
    ensures m != [] && m[0].left == r ==> Insert(m, id, r) == InsertedAt(m, 1, id, 0)
  {
    assert m[..0] == [] && m[0..] == m;
    if m != [] && m[0].left == r {
      assert m[..1] == [m[0]];
      assert Lowered(m[1..], 0) == m[1..];
    }
  }

  lemma InsertedBehind(l: seq<Nap>, i: nat, j: nat, id: nat, r: nat)
    requires i + j <= |l|
    ensures l[..i] + InsertedAt(l[i..], j, id, r) == InsertedAt(l, i + j, id, r)
  {
    hide Lowered;
    assert l[i..][..j] == l[i..i + j] && l[i..][j..] == l[i + j..];
    assert l[..i] + l[i..i + j] == l[..i + j];
  }

  lemma SearchEnds(l: seq<Nap>, id: nat, t: nat, i: nat, r: nat)
    requires Searching(l, id, t, i, r) && (i == |l| || l[i].left >= r)
    ensures i == |l| || l[i].left > r ==> Insert(l, id, t) == InsertedAt(l, i, id, r)
    ensures i < |l| && l[i].left == r ==> Insert(l, id, t) == InsertedAt(l, i + 1, id, 0)
  {
    hide Insert, InsertedAt;
    InsertHere(l[i..], id, r);
    if i == |l| || l[i].left > r {
      InsertedBehind(l, i, 0, id, r);
    } else {
      InsertedBehind(l, i, 1, id, 0);
    }
  }
}
