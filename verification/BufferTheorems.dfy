// What the bounded buffer promises, whatever the interleaving.
module BufferTheorems {
  import opened SemaphoreSpec
  import opened BufferSpec
  import opened BufferProtocol

  // The number of items stored: written and not yet read.
  function Stored(b: BState): int {
    |b.written| - |b.read|
  }

  // In every state a run can reach, the values read are the first of the values written, in the order they
  // were written; at most cap items are stored, and each of them is in its slot.
  lemma FirstInFirstOut(cap: nat, slots: seq<int>, es: seq<Event>, b: BState)
    requires |slots| >= cap && Run(Init(cap, slots), es, b)
    ensures b.read <= b.written && 0 <= Stored(b) <= cap
    ensures |b.buf| > 0 ==> forall j: nat :: |b.read| <= j < |b.written| ==> b.buf[j % |b.buf|] == b.written[j]
  {
    InitInv(cap, slots);
    RunInv(Init(cap, slots), es, b);
    RunCap(Init(cap, slots), es, b);
    hide Run, LevelsOk, QueuesOk, Tally;
  }

  lemma {:induction false} RunCap(b: BState, es: seq<Event>, b': BState)
    requires Run(b, es, b')
    ensures b'.cap == b.cap && |b'.buf| == |b.buf|
    decreases |es|
  {
    if es != [] {
      match es[0]
      case Enter(k, v) => RunCap(Begin(b, k, v), es[1..], b');
      case Go(i) => RunCap(Step(b, i), es[1..], b');
    }
  }

  // A put writes the slot after the last one written, and only if that slot's old value was read.
  lemma NeverOverwritten(b: BState, i: nat)
    requires Inv(b) && i < |b.calls| && ActionOf(b.calls[i]) == Write
    ensures |b.buf| > 0 && b.tail == |b.written| % |b.buf| && Stored(b) < b.cap
    ensures |b.written| >= |b.buf| ==> b.read[..|b.written| - |b.buf| + 1] == b.written[..|b.written| - |b.buf| + 1]
  {
    BeforeWrite(b, i);
    hide LevelsOk, QueuesOk, PlacesOk, ActionOf;
    assert ContentsOk(b);
    if |b.written| >= |b.buf| {
      var n := |b.written| - |b.buf| + 1;
      assert b.read[..n] == b.written[..|b.read|][..n] == b.written[..n];
    }
  }

  // A get reads the oldest stored item.
  lemma ReadsOldest(b: BState, i: nat)
    requires Inv(b) && CanStep(b, i) && ActionOf(b.calls[i]) == Read && InSlots(b, i)
    ensures Stored(b) > 0
    ensures Step(b, i).calls[i].val == b.written[|b.read|] && Step(b, i).read == b.read + [b.written[|b.read|]]
  {
    BeforeRead(b, i);
    hide LevelsOk, QueuesOk, PlacesOk;
    assert ContentsOk(b);
  }

  // ----- mutual exclusion

  // Between taking mutexTail (mutexHead) and giving it back.
  predicate HoldsTail(c: Call) {
    (c.kind == Put && 2 <= c.pc <= 4) || (c.kind == Count && 2 <= c.pc <= 3)
  }

  predicate HoldsHead(c: Call) {
    (c.kind == Get && 2 <= c.pc <= 4) || (c.kind == Count && 1 <= c.pc <= 4)
  }

  lemma {:induction false} Within(cs: seq<Call>, k: Kind, n: nat, m: nat)
    requires n <= m
    ensures Num(cs, (c: Call) => c.kind == k && n <= c.pc < m) == Tally(cs, k, n) - Tally(cs, k, m)
  {
    if cs != [] {
      Within(cs[1..], k, n, m);
    }
  }

  lemma {:induction false} NumBoth(cs: seq<Call>, p: Call -> bool, q: Call -> bool, r: Call -> bool)
    requires forall c :: r(c) ==> p(c) || q(c)
    requires forall c :: !(p(c) && q(c))
    requires forall c :: p(c) || q(c) ==> r(c)
    ensures Num(cs, r) == Num(cs, p) + Num(cs, q)
  {
    if cs != [] {
      NumBoth(cs[1..], p, q, r);
    }
  }

  lemma TwoCounted(cs: seq<Call>, p: Call -> bool, i: nat, j: nat)
    requires i < |cs| && j < |cs| && i != j && p(cs[i]) && p(cs[j])
    requires exists c :: !p(c)
    ensures Num(cs, p) >= 2
  {
    var c :| !p(c);
    NumUpdate(cs, p, i, c);
    NumUpdate(cs[i := c], p, j, c);
  }

  // At most one call holds mutexTail, and at most one holds mutexHead.
  lemma Exclusive(b: BState, i: nat, j: nat)
    requires Inv(b) && i < |b.calls| && j < |b.calls|
    requires (HoldsTail(b.calls[i]) && HoldsTail(b.calls[j])) || (HoldsHead(b.calls[i]) && HoldsHead(b.calls[j]))
    ensures i == j
  {
    hide Inv;
    if i != j {
      TailHolders(b);
      HeadHolders(b);
      var never := Call(Put, 0, false, 0);
      assert !HoldsTail(never) && !HoldsHead(never);
      if HoldsTail(b.calls[i]) && HoldsTail(b.calls[j]) {
        TwoCounted(b.calls, HoldsTail, i, j);
      } else {
        TwoCounted(b.calls, HoldsHead, i, j);
      }
    }
  }

  lemma TailHolders(b: BState)
    requires Inv(b)
    ensures Num(b.calls, HoldsTail) <= 1
  {
    var cs := b.calls;
    assert Available(SemOf(b, Tail)) == Level(b.cap, cs, Tail);
    hide Inv, Tally, SemOf;
    var put, count := (c: Call) => c.kind == Put && 2 <= c.pc < 5, (c: Call) => c.kind == Count && 2 <= c.pc < 4;
    Within(cs, Put, 2, 5);
    Within(cs, Count, 2, 4);
    NumBoth(cs, put, count, HoldsTail);
  }

  lemma HeadHolders(b: BState)
    requires Inv(b)
    ensures Num(b.calls, HoldsHead) <= 1
  {
    var cs := b.calls;
    assert Available(SemOf(b, Head)) == Level(b.cap, cs, Head);
    hide Inv, Tally, SemOf;
    var get, count := (c: Call) => c.kind == Get && 2 <= c.pc < 5, (c: Call) => c.kind == Count && 1 <= c.pc < 5;
    Within(cs, Get, 2, 5);
    Within(cs, Count, 1, 5);
    NumBoth(cs, get, count, HoldsHead);
  }

  // ----- getCnt

  lemma CountMod(r: nat, w: nat, s: nat)
    requires s > 0 && r <= w <= r + s
    ensures CountOf(s, r % s, w % s) == (w - r) % s
  {
    var p := DivMod(r, s);
    var q := DivMod(w, s);
    CountApart(r, w, s, p, r % s, q, w % s);
    ModOfDifference(w - r, s, CountOf(s, r % s, w % s));
  }

  // How far two positions are apart, from their quotients and remainders.
  lemma CountApart(r: nat, w: nat, s: nat, p: nat, i: nat, q: nat, j: nat)
    requires r == p * s + i && w == q * s + j && i < s && j < s && r <= w <= r + s
    ensures var d := CountOf(s, i, j); 0 <= d < s && (w - r == d || w - r == d + s)
  {
    if p < q {
      QuotientOrder(p, q, s);
      if p + 1 < q {
        QuotientOrder(p + 1, q, s);
      }
    } else if q < p {
      QuotientOrder(q, p, s);
    }
  }

  lemma ModOfDifference(n: nat, s: nat, d: nat)
    requires s > 0 && d < s && (n == d || n == d + s)
    ensures n % s == d
  {
    if n == d {
      ModUnique(n, s, 0, d);
    } else {
      ModUnique(n, s, 1, d);
    }
  }

  // What getCnt computes: the number of stored items, unless every slot is taken, when it is 0.
  lemma CountExact(b: BState, i: nat)
    requires Inv(b) && i < |b.calls| && ActionOf(b.calls[i]) == Compute
    ensures var n := CountOf(|b.buf|, b.head, b.tail);
            && (n == Stored(b) <==> Stored(b) < |b.buf| || |b.buf| == 0)
            && (Stored(b) == |b.buf| ==> n == 0)
  {
    PositionsStill(b, i);
    assert ContentsOk(b) && |b.buf| >= b.cap;
    hide Inv, ActionOf, ContentsOk;
    StoredWithin(b);
    if |b.buf| == 0 {
      return;
    }
    CountMod(|b.read|, |b.written|, |b.buf|);
    if Stored(b) < |b.buf| {
      ModUnique(Stored(b), |b.buf|, 0, Stored(b));
    } else {
      ModUnique(Stored(b), |b.buf|, 1, 0);
    }
  }

  // While a getCnt holds both mutexes no put and no get is between its access and its advance.
  lemma PositionsStill(b: BState, i: nat)
    requires Inv(b) && i < |b.calls| && ActionOf(b.calls[i]) == Compute
    ensures b.head == Position(|b.read|, |b.buf|) && b.tail == Position(|b.written|, |b.buf|)
  {
    PutsStill(b, i);
    GetsStill(b, i);
    assert PlacesOk(b);
    hide Inv, LevelsOk, QueuesOk, Tally, ActionOf, ContentsOk, Position;
    PlacesParts(b);
  }

  lemma PutsStill(b: BState, i: nat)
    requires Inv(b) && i < |b.calls| && ActionOf(b.calls[i]) == Compute
    ensures Tally(b.calls, Put, 3) == Tally(b.calls, Put, 4)
  {
    var cs := b.calls;
    assert Available(SemOf(b, Tail)) == Level(b.cap, cs, Tail) && cs[i].kind == Count && cs[i].pc == 2;
    hide Inv, Tally, ActionOf, SemOf;
    TallyStrict(cs, Count, i);
    TallyOrder(cs, Count, 3, 4);
    TallyOrder(cs, Put, 2, 3);
    TallyOrder(cs, Put, 3, 4);
    TallyOrder(cs, Put, 4, 5);
  }

  lemma GetsStill(b: BState, i: nat)
    requires Inv(b) && i < |b.calls| && ActionOf(b.calls[i]) == Compute
    ensures Tally(b.calls, Get, 3) == Tally(b.calls, Get, 4)
  {
    var cs := b.calls;
    assert Available(SemOf(b, Head)) == Level(b.cap, cs, Head) && cs[i].kind == Count && cs[i].pc == 2;
    hide Inv, Tally, ActionOf, SemOf;
    TallyStrict(cs, Count, i);
    TallyOrder(cs, Count, 1, 2);
    TallyOrder(cs, Count, 3, 5);
    TallyOrder(cs, Get, 2, 3);
    TallyOrder(cs, Get, 3, 4);
    TallyOrder(cs, Get, 4, 5);
  }

  lemma StoredWithin(b: BState)
    requires ContentsOk(b)
    ensures 0 <= Stored(b) <= b.cap
  {
  }

  // With one slot to spare, as Buffer has, getCnt is always exact.
  lemma SpareSlotExact(b: BState, i: nat)
    requires Inv(b) && |b.buf| == b.cap + 1 && CanStep(b, i) && ActionOf(b.calls[i]) == Compute
    ensures Step(b, i).calls[i].val == Stored(b)
  {
    CountExact(b, i);
    assert ContentsOk(b);
  }

  // Without one, as in myBuffer, it is exact just when the buffer is not full, or has no slots at all.
  lemma NoSpareSlot(b: BState, i: nat)
    requires Inv(b) && |b.buf| == b.cap && CanStep(b, i) && ActionOf(b.calls[i]) == Compute
    ensures Step(b, i).calls[i].val == Stored(b) <==> Stored(b) < b.cap || b.cap == 0
    ensures Stored(b) == b.cap ==> Step(b, i).calls[i].val == 0
  {
    CountExact(b, i);
    assert ContentsOk(b);
  }

  // One more event at the end of a run.
  lemma {:induction false} RunThen(b: BState, es: seq<Event>, b1: BState, e: Event, b2: BState)
    requires Run(b, es, b1)
    requires match e
             case Enter(k, v) => b2 == Begin(b1, k, v)
             case Go(i) => CanStep(b1, i) && InSlots(b1, i) && b2 == Step(b1, i)
    ensures Run(b, es + [e], b2)
    decreases |es|
  {
    assert (es + [e])[..|es|] == es;
    if es == [] {
      assert es + [e] == [e] && [e][1..] == [];
    } else {
      assert (es + [e])[1..] == es[1..] + [e];
      match es[0]
      case Enter(k, v) => RunThen(Begin(b, k, v), es[1..], b1, e, b2);
      case Go(i) => RunThen(Step(b, i), es[1..], b1, e, b2);
    }
  }

  lemma GoOn(b: BState, es: seq<Event>, b1: BState, i: nat, b2: BState) returns (es2: seq<Event>)
    requires Run(b, es, b1) && CanStep(b1, i) && InSlots(b1, i) && b2 == Step(b1, i)
    ensures Run(b, es2, b2)
  {
    es2 := es + [Go(i)];
    RunThen(b, es, b1, Go(i), b2);
  }

  // The states of a buffer with one slot while call 0 puts 7.
  function OnePut(pc: nat): BState {
    BState(1, if pc >= 3 then [7] else [0], 0, 0, Sem(if pc >= 6 then 1 else 0, []), Sem(if pc >= 1 then 0 else 1, []),
           Sem(1, []), Sem(if 2 <= pc <= 4 then 0 else 1, []), [Call(Put, pc, false, 7)],
           if pc >= 3 then [7] else [], [])
  }

  // The same with call 1 counting afterwards.
  function ThenCount(pc: nat): BState {
    BState(1, [7], 0, 0, Sem(1, []), Sem(0, []), Sem(if pc >= 1 then 0 else 1, []), Sem(if pc >= 2 then 0 else 1, []),
           [Call(Put, 6, false, 7), Call(Count, pc, false, 0)], [7], [])
  }

  lemma PutGoes(pc: nat)
    requires pc < 6
    ensures CanStep(OnePut(pc), 0) && InSlots(OnePut(pc), 0)
    ensures Step(OnePut(pc), 0) == OnePut(pc + 1)
  {
    var calls := [Call(Put, pc, false, 7)];
    assert calls[0 := Call(Put, pc + 1, false, 7)] == [Call(Put, pc + 1, false, 7)];
    hide CountOf;
  }

  lemma CountGoes(pc: nat)
    requires pc < 3
    ensures CanStep(ThenCount(pc), 1) && InSlots(ThenCount(pc), 1)
    ensures Step(ThenCount(pc), 1) == ThenCount(pc + 1)
  {
    var calls := [Call(Put, 6, false, 7), Call(Count, pc, false, 0)];
    assert calls[1 := Call(Count, pc + 1, false, 0)] == [Call(Put, 6, false, 7), Call(Count, pc + 1, false, 0)];
  }

  lemma {:induction false} PutRun(pc: nat) returns (es: seq<Event>)
    requires pc <= 6
    ensures Run(Init(1, [0]), es, OnePut(pc))
  {
    if pc == 0 {
      RunThen(Init(1, [0]), [], Init(1, [0]), Enter(Put, 7), OnePut(0));
      es := [] + [Enter(Put, 7)];
    } else {
      es := PutRun(pc - 1);
      hide *;
      PutGoes(pc - 1);
      es := GoOn(Init(1, [0]), es, OnePut(pc - 1), 0, OnePut(pc));
    }
  }

  lemma {:induction false} CountRun(pc: nat) returns (es: seq<Event>)
    requires pc <= 3
    ensures Run(Init(1, [0]), es, ThenCount(pc))
  {
    if pc == 0 {
      es := PutRun(6);
      assert ThenCount(0) == Begin(OnePut(6), Count, 0);
      RunThen(Init(1, [0]), es, OnePut(6), Enter(Count, 0), ThenCount(0));
      es := es + [Enter(Count, 0)];
    } else {
      es := CountRun(pc - 1);
      hide *;
      CountGoes(pc - 1);
      es := GoOn(Init(1, [0]), es, ThenCount(pc - 1), 1, ThenCount(pc));
    }
  }

  // A run of myBuffer's protocol in which getCnt answers 0 although an item is stored: one slot, one put,
  // then one getCnt.
  lemma FullCountsZero() returns (es: seq<Event>, b: BState)
    ensures Run(Init(1, [0]), es, b) && Stored(b) == 1
    ensures |b.calls| == 2 && b.calls[1].kind == Count && b.calls[1].pc == 3 && b.calls[1].val == 0
  {
    b := ThenCount(3);
    es := CountRun(3);
  }

  // ----- progress

  predicate Unfinished(b: BState, i: nat) {
    i < |b.calls| && ActionOf(b.calls[i]) != Finished
  }

  // The buffer is full and whoever is not finished waits for space.
  ghost predicate AllWaitForSpace(b: BState) {
    Stored(b) == b.cap &&
      forall i: nat :: Unfinished(b, i) ==> b.calls[i].blocked && ActionOf(b.calls[i]) == Wait(Space)
  }

  // The buffer is empty and whoever is not finished waits for an item.
  ghost predicate AllWaitForItems(b: BState) {
    Stored(b) == 0 && forall i: nat :: Unfinished(b, i) ==> b.calls[i].blocked && ActionOf(b.calls[i]) == Wait(Item)
  }

  // No call of kind k has done at least n and fewer than m steps.
  ghost predicate Gap(cs: seq<Call>, k: Kind, n: nat, m: nat) {
    forall i: nat :: i < |cs| && cs[i].kind == k ==> cs[i].pc < n || m <= cs[i].pc
  }

  lemma TallyFlat(cs: seq<Call>, k: Kind, n: nat, m: nat)
    requires n <= m && Gap(cs, k, n, m)
    ensures Tally(cs, k, n) == Tally(cs, k, m)
  {
    NumSame(cs, Past(k, n), Past(k, m));
  }

  // A call blocked on w means that no wait on w can pass.
  lemma BlockedLevel(b: BState, i: nat, w: Which)
    requires Inv(b) && i < |b.calls| && b.calls[i].blocked && ActionOf(b.calls[i]) == Wait(w)
    ensures Level(b.cap, b.calls, w) == 0
  {
    assert QueueOk(b, w) && Available(SemOf(b, w)) == Level(b.cap, b.calls, w);
    assert i in SemOf(b, w).queue;
  }

  // When nobody can step, calls stand at their waits or are finished.
  ghost predicate Stuck(b: BState) {
    forall i: nat :: !CanStep(b, i)
  }

  lemma StuckAt(b: BState, i: nat)
    requires Inv(b) && Stuck(b) && i < |b.calls|
    ensures var c := b.calls[i];
            (c.blocked && ActionOf(c).Wait?) || ActionOf(c) == Finished
  {
    assert !CanStep(b, i);
    assert QueuesOk(b);
  }

  lemma StuckGaps(b: BState)
    requires Inv(b) && Stuck(b)
    ensures Gap(b.calls, Put, 2, 6) && Gap(b.calls, Get, 2, 6) && Gap(b.calls, Count, 2, 5)
  {
    hide Inv, Stuck;
    forall i: nat | i < |b.calls|
      ensures var c := b.calls[i]; c.pc < 2 || (if c.kind == Count then 5 else 6) <= c.pc
    {
      StuckAt(b, i);
    }
  }

  lemma NobodyAtTail(b: BState, i: nat)
    requires Inv(b) && Stuck(b) && i < |b.calls| && b.calls[i].blocked
    ensures ActionOf(b.calls[i]) != Wait(Tail)
  {
    hide Inv, Stuck, Tally, ActionOf;
    StuckGaps(b);
    TallyFlat(b.calls, Put, 2, 5);
    TallyFlat(b.calls, Count, 2, 4);
    if ActionOf(b.calls[i]) == Wait(Tail) {
      BlockedLevel(b, i, Tail);
    }
  }

  lemma NobodyAtHead(b: BState, i: nat)
    requires Inv(b) && Stuck(b) && i < |b.calls| && b.calls[i].blocked
    ensures ActionOf(b.calls[i]) != Wait(Head)
  {
    hide Inv, Stuck, Tally;
    StuckGaps(b);
    forall j: nat | j < |b.calls| && b.calls[j].kind == Count
      ensures b.calls[j].pc < 1 || 5 <= b.calls[j].pc
    {
      StuckAt(b, j);
      if b.calls[j].pc == 1 {
        NobodyAtTail(b, j);
      }
    }
    TallyFlat(b.calls, Get, 2, 5);
    TallyFlat(b.calls, Count, 1, 5);
    hide ActionOf;
    if ActionOf(b.calls[i]) == Wait(Head) {
      BlockedLevel(b, i, Head);
    }
  }

  // A stuck call waits for space or for an item.
  lemma StuckWaits(b: BState, i: nat)
    requires Inv(b) && Stuck(b) && Unfinished(b, i)
    ensures b.calls[i].blocked && (ActionOf(b.calls[i]) == Wait(Space) || ActionOf(b.calls[i]) == Wait(Item))
  {
    hide Inv, Stuck, ActionOf;
    StuckAt(b, i);
    NobodyAtTail(b, i);
    NobodyAtHead(b, i);
    match ActionOf(b.calls[i])
    case Wait(w) =>
      match w {
        case Space =>
        case Item =>
        case Tail =>
        case Head =>
      }
    case _ =>
  }

  lemma StuckTallies(b: BState)
    requires Inv(b) && Stuck(b)
    ensures Tally(b.calls, Put, 1) == Tally(b.calls, Put, 6) == |b.written|
    ensures Tally(b.calls, Get, 1) == Tally(b.calls, Get, 6) == |b.read|
  {
    assert PlacesOk(b);
    hide Inv, Stuck, Tally, LevelsOk, QueuesOk, ContentsOk;
    StuckGaps(b);
    forall j: nat | j < |b.calls| && (b.calls[j].kind == Put || b.calls[j].kind == Get)
      ensures b.calls[j].pc < 1 || 6 <= b.calls[j].pc
    {
      if b.calls[j].pc == 1 {
        StuckWaits(b, j);
      }
    }
    TallyFlat(b.calls, Put, 1, 6);
    TallyFlat(b.calls, Get, 1, 6);
    TallyFlat(b.calls, Put, 3, 6);
    TallyFlat(b.calls, Get, 3, 6);
  }

  // In every reachable state with room for at least one item, some call can step, unless all that are not
  // finished wait for space on a full buffer, or all of them for an item on an empty one.
  lemma Progress(b: BState)
    requires Inv(b) && b.cap >= 1
    ensures (exists i: nat :: CanStep(b, i)) || AllWaitForSpace(b) || AllWaitForItems(b) ||
            forall i: nat :: !Unfinished(b, i)
  {
    hide Inv, Tally, ActionOf;
    if Stuck(b) {
      StuckTallies(b);
      if i: nat :| Unfinished(b, i) {
        StuckWaits(b, i);
        BlockedLevel(b, i, if ActionOf(b.calls[i]) == Wait(Space) then Space else Item);
        forall j: nat | Unfinished(b, j)
          ensures b.calls[j].blocked && ActionOf(b.calls[j]) == ActionOf(b.calls[i])
        {
          StuckWaits(b, j);
          BlockedLevel(b, j, if ActionOf(b.calls[j]) == Wait(Space) then Space else Item);
        }
      }
    }
  }

  // Nor is a full or empty buffer stuck for good: the first call of the other kind gets all its semaphores.
  lemma OtherSideFree(b: BState)
    requires Inv(b) && b.cap >= 1
    ensures AllWaitForSpace(b) && Stuck(b) ==> b.item.val >= 1 && b.mutexHead.val >= 1
    ensures AllWaitForItems(b) && Stuck(b) ==> b.space.val >= 1 && b.mutexTail.val >= 1
  {
    if Stuck(b) && (AllWaitForSpace(b) || AllWaitForItems(b)) {
      assert Available(SemOf(b, Item)) == Level(b.cap, b.calls, Item) &&
             Available(SemOf(b, Space)) == Level(b.cap, b.calls, Space);
      assert Available(SemOf(b, Head)) == Level(b.cap, b.calls, Head) &&
             Available(SemOf(b, Tail)) == Level(b.cap, b.calls, Tail);
      StuckTallies(b);
      StuckGaps(b);
      CountsDone(b);
      hide Inv, Tally, ActionOf, LevelsOk, QueuesOk, PlacesOk, ContentsOk;
      TallyFlat(b.calls, Put, 2, 5);
      TallyFlat(b.calls, Get, 2, 5);
      TallyFlat(b.calls, Count, 2, 4);
      TallyFlat(b.calls, Count, 1, 5);
    }
  }

  lemma CountsDone(b: BState)
    requires AllWaitForSpace(b) || AllWaitForItems(b)
    ensures Gap(b.calls, Count, 1, 5)
  {
    forall j: nat | j < |b.calls| && b.calls[j].kind == Count
      ensures 5 <= b.calls[j].pc
    {
      assert Unfinished(b, j) <==> b.calls[j].pc < 5;
    }
  }
}
