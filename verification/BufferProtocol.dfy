// What the bounded buffer keeps at every step of every interleaving.
module BufferProtocol {
  import opened Sequences
  import opened SemaphoreSpec
  import opened BufferSpec
  import opened Powers

  // Calls of kind k that have done at least n steps.
  function Past(k: Kind, n: nat): Call -> bool {
    (c: Call) => c.kind == k && c.pc >= n
  }

  function Tally(cs: seq<Call>, k: Kind, n: nat): nat {
    Num(cs, Past(k, n))
  }

  // How many waits on w could pass now.
  function Available(m: Sem): nat {
    if m.val < 0 then 0 else m.val
  }

  // The same, computed from how far the calls are.
  function Level(cap: nat, cs: seq<Call>, w: Which): int {
    match w
    case Space => cap - Tally(cs, Put, 1) + Tally(cs, Get, 6)
    case Item => Tally(cs, Put, 6) - Tally(cs, Get, 1)
    case Tail => 1 - (Tally(cs, Put, 2) - Tally(cs, Put, 5)) - (Tally(cs, Count, 2) - Tally(cs, Count, 4))
    case Head => 1 - (Tally(cs, Get, 2) - Tally(cs, Get, 5)) - (Tally(cs, Count, 1) - Tally(cs, Count, 5))
  }

  ghost predicate LevelsOk(b: BState) {
    forall w :: Available(SemOf(b, w)) == Level(b.cap, b.calls, w)
  }

  // The queue of w holds just the calls blocked on it, and is as long as w is negative.
  ghost predicate QueueOk(b: BState, w: Which) {
    var m := SemOf(b, w);
    && NoDup(m.queue) && |m.queue| == (if m.val < 0 then -m.val else 0)
    && (forall i: nat :: i in m.queue <==> i < |b.calls| && b.calls[i].blocked && ActionOf(b.calls[i]) == Wait(w))
  }

  ghost predicate QueuesOk(b: BState) {
    && (forall w :: QueueOk(b, w))
    && (forall i: nat :: i < |b.calls| && b.calls[i].blocked ==> ActionOf(b.calls[i]).Wait?)
  }

  // The position after n steps around the slots.
  function Position(n: nat, slots: nat): nat {
    if slots == 0 then 0 else n % slots
  }

  // Positions and histories agree with the calls.
  ghost predicate PlacesOk(b: BState) {
    && |b.buf| >= b.cap
    && |b.written| == Tally(b.calls, Put, 3) && |b.read| == Tally(b.calls, Get, 3)
    && b.tail == Position(Tally(b.calls, Put, 4), |b.buf|) && b.head == Position(Tally(b.calls, Get, 4), |b.buf|)
  }

  // The slots hold what was written and not yet read; what was read is what was written first.
  ghost predicate ContentsOk(b: BState) {
    && |b.read| <= |b.written| <= |b.read| + b.cap && b.read == b.written[..|b.read|]
    && (|b.buf| > 0 ==> forall j: nat :: |b.read| <= j < |b.written| ==> b.buf[j % |b.buf|] == b.written[j])
  }

  ghost predicate Inv(b: BState) {
    LevelsOk(b) && QueuesOk(b) && PlacesOk(b) && ContentsOk(b)
  }

  // ----- tallies

  lemma {:induction false} TallyOrder(cs: seq<Call>, k: Kind, n: nat, m: nat)
    requires n <= m
    ensures Tally(cs, k, m) <= Tally(cs, k, n)
  {
    NumFewer(cs, Past(k, m), Past(k, n));
  }

  // A call that has done exactly n steps counts for n and not for n + 1.
  lemma TallyStrict(cs: seq<Call>, k: Kind, i: nat)
    requires i < |cs| && cs[i].kind == k
    ensures Tally(cs, k, cs[i].pc) > Tally(cs, k, cs[i].pc + 1)
  {
    var c, n := cs[i], cs[i].pc;
    var d := c.(pc := n + 1);
    NumUpdate(cs, Past(k, n + 1), i, d);
    NumUpdate(cs, Past(k, n), i, d);
    TallyOrder(cs[i := d], k, n, n + 1);
  }

  // One step of call i moves one tally.
  lemma TallyStep(cs: seq<Call>, i: nat, c: Call, k: Kind, n: nat)
    requires i < |cs| && c.kind == cs[i].kind && c.pc == cs[i].pc + 1
    ensures Tally(cs[i := c], k, n) == Tally(cs, k, n) + if k == c.kind && n == c.pc then 1 else 0
  {
    NumUpdate(cs, Past(k, n), i, c);
  }

  lemma TallySame(cs: seq<Call>, i: nat, c: Call, k: Kind, n: nat)
    requires i < |cs| && c.kind == cs[i].kind && c.pc == cs[i].pc
    ensures Tally(cs[i := c], k, n) == Tally(cs, k, n)
  {
    NumUpdate(cs, Past(k, n), i, c);
  }

  lemma TallyNew(cs: seq<Call>, c: Call, k: Kind, n: nat)
    requires c.pc == 0
    ensures Tally(cs + [c], k, n) == Tally(cs, k, n) + if k == c.kind && n == 0 then 1 else 0
  {
    NumAppend(cs, Past(k, n), c);
  }

  // A step past a wait lowers the level of its semaphore by one, a signal raises it, nothing else does.
  function Effect(a: Action, w: Which): int {
    if a == Wait(w) then -1 else if a == Signal(w) then 1 else 0
  }

  lemma LevelStep(cap: nat, cs: seq<Call>, i: nat, c: Call, w: Which)
    requires i < |cs| && c.kind == cs[i].kind && c.pc == cs[i].pc + 1
    ensures Level(cap, cs[i := c], w) == Level(cap, cs, w) + Effect(ActionOf(cs[i]), w)
  {
    hide Tally;
    forall k, n: nat
      ensures Tally(cs[i := c], k, n) == Tally(cs, k, n) + if k == c.kind && n == c.pc then 1 else 0
    {
      TallyStep(cs, i, c, k, n);
    }
  }

  lemma LevelSame(cap: nat, cs: seq<Call>, i: nat, c: Call, w: Which)
    requires i < |cs| && c.kind == cs[i].kind && c.pc == cs[i].pc
    ensures Level(cap, cs[i := c], w) == Level(cap, cs, w)
  {
    hide Tally;
    forall k, n: nat
      ensures Tally(cs[i := c], k, n) == Tally(cs, k, n)
    {
      TallySame(cs, i, c, k, n);
    }
  }

  // ----- waits and signals

  // Calls other than i are as they were, and no call but i leaves or joins a queue.
  lemma QueueKept(b: BState, b': BState, i: nat, w: Which)
    requires QueueOk(b, w) && i < |b.calls| && !b.calls[i].blocked && SemOf(b', w).queue == SemOf(b, w).queue
    requires (SemOf(b', w).val < 0 || SemOf(b, w).val < 0) ==> SemOf(b', w).val == SemOf(b, w).val
    requires |b'.calls| == |b.calls| && (b'.calls[i].blocked ==> ActionOf(b'.calls[i]) != Wait(w))
    requires forall j: nat :: j < |b.calls| && j != i ==> b'.calls[j] == b.calls[j]
    ensures QueueOk(b', w)
  {
  }

  // Slots, positions, histories and capacity are the same.
  predicate SameSlots(b: BState, b': BState) {
    && b'.buf == b.buf && b'.written == b.written && b'.read == b.read
    && b'.head == b.head && b'.tail == b.tail && b'.cap == b.cap
  }

  lemma InvParts(b: BState)
    requires Inv(b)
    ensures LevelsOk(b) && QueuesOk(b) && PlacesOk(b) && ContentsOk(b)
    ensures forall w :: QueueOk(b, w) && Available(SemOf(b, w)) == Level(b.cap, b.calls, w)
  {
  }

  lemma MakeInv(b: BState)
    requires PlacesOk(b) && ContentsOk(b)
    requires forall w :: Available(SemOf(b, w)) == Level(b.cap, b.calls, w) && QueueOk(b, w)
    requires forall i: nat :: i < |b.calls| && b.calls[i].blocked ==> ActionOf(b.calls[i]).Wait?
    ensures Inv(b)
  {
  }

  lemma SameContents(b: BState, b': BState)
    requires ContentsOk(b) && SameSlots(b, b')
    ensures ContentsOk(b')
  {
  }

  // A blocked call waits.
  lemma BlockedWaits(b: BState, i: nat)
    requires QueuesOk(b) && i < |b.calls| && b.calls[i].blocked
    ensures ActionOf(b.calls[i]).Wait?
  {
  }

  // The state after call i stepped to c and semaphore w became m.
  ghost predicate Moved(b: BState, b': BState, i: nat, c: Call, w: Which, m: Sem) {
    && i < |b.calls| && b'.calls == b.calls[i := c] && SameSlots(b, b')
    && forall v :: SemOf(b', v) == if v == w then m else SemOf(b, v)
  }

  lemma PassKeeps(b: BState, i: nat, w: Which)
    requires Inv(b) && CanStep(b, i) && ActionOf(b.calls[i]) == Wait(w) && SemOf(b, w).val >= 1
    ensures Inv(DoWait(b, i, w))
  {
    var b', c := DoWait(b, i, w), b.calls[i].(pc := b.calls[i].pc + 1, blocked := false);
    var m := Sem(SemOf(b, w).val - 1, SemOf(b, w).queue);
    SemsOf(b, w, m);
    WaitIsNoAdvance(b.calls[i], w);
    assert Moved(b, b', i, c, w, m);
    hide *;
    StepKeeps(b, b', i, c, w, m);
  }

  lemma WaitIsNoAdvance(c: Call, w: Which)
    requires ActionOf(c) == Wait(w) || ActionOf(c) == Signal(w)
    ensures !(c.kind == Put && (c.pc == 2 || c.pc == 3)) && !(c.kind == Get && (c.pc == 2 || c.pc == 3))
  {
  }

  // An unblocked call got past a wait or a signal of w and blocked nobody and released nobody.
  lemma StepKeeps(b: BState, b': BState, i: nat, c: Call, w: Which, m: Sem)
    requires Inv(b) && Moved(b, b', i, c, w, m) && !b.calls[i].blocked && !c.blocked
    requires c.kind == b.calls[i].kind && c.pc == b.calls[i].pc + 1
    requires !(c.kind == Put && (c.pc == 3 || c.pc == 4)) && !(c.kind == Get && (c.pc == 3 || c.pc == 4))
    requires forall v :: Effect(ActionOf(b.calls[i]), v) == if v == w then Available(m) - Available(SemOf(b, w)) else 0
    requires m.queue == SemOf(b, w).queue && (m.val < 0 || SemOf(b, w).val < 0 ==> m.val == SemOf(b, w).val)
    ensures Inv(b')
  {
    InvParts(b);
    hide Inv, LevelsOk, QueuesOk, QueueOk, PlacesOk, ContentsOk, Level, ActionOf, Effect, SameSlots, Available;
    SlotsSame(b, b');
    forall v
      ensures Available(SemOf(b', v)) == Level(b'.cap, b'.calls, v) && QueueOk(b', v)
    {
      LevelStep(b.cap, b.calls, i, c, v);
      QueueKept(b, b', i, v);
    }
    forall j: nat | j < |b'.calls| && b'.calls[j].blocked
      ensures ActionOf(b'.calls[j]).Wait?
    {
      BlockedWaits(b, j);
    }
    OtherPlaces(b, b', i, c);
    SameContents(b, b');
    MakeInv(b');
  }

  lemma SlotsSame(b: BState, b': BState)
    requires SameSlots(b, b')
    ensures b'.buf == b.buf && b'.written == b.written && b'.read == b.read
    ensures b'.head == b.head && b'.tail == b.tail && b'.cap == b.cap
  {
  }

  lemma BlockKeeps(b: BState, i: nat, w: Which)
    requires Inv(b) && CanStep(b, i) && ActionOf(b.calls[i]) == Wait(w) && SemOf(b, w).val < 1
    ensures Inv(DoWait(b, i, w))
  {
    var b', c := DoWait(b, i, w), b.calls[i].(blocked := true);
    var m := Sem(SemOf(b, w).val - 1, SemOf(b, w).queue + [i]);
    SemsOf(b, w, m);
    InvParts(b);
    BlockedAction(b.calls[i]);
    hide Inv, LevelsOk, QueuesOk, QueueOk, PlacesOk, ContentsOk, Level, ActionOf, SameSlots, DoWait;
    forall v
      ensures Available(SemOf(b', v)) == Level(b'.cap, b'.calls, v) && QueueOk(b', v)
    {
      LevelSame(b.cap, b.calls, i, c, v);
      if v == w {
        QueueJoined(b, b', i, w);
      } else {
        QueueKept(b, b', i, v);
      }
    }
    forall j: nat | j < |b'.calls| && b'.calls[j].blocked
      ensures ActionOf(b'.calls[j]).Wait?
    {
      if j != i {
        BlockedWaits(b, j);
      }
    }
    SamePlaces(b, b', i, c);
    SameContents(b, b');
    MakeInv(b');
  }

  lemma BlockedAction(c: Call)
    ensures ActionOf(c.(blocked := true)) == ActionOf(c) && ActionOf(c.(blocked := false)) == ActionOf(c)
  {
  }

  lemma QueueJoined(b: BState, b': BState, i: nat, w: Which)
    requires QueueOk(b, w) && i < |b.calls| && !b.calls[i].blocked && SemOf(b, w).val < 1
    requires SemOf(b', w) == Sem(SemOf(b, w).val - 1, SemOf(b, w).queue + [i])
    requires |b'.calls| == |b.calls| && b'.calls[i].blocked && ActionOf(b'.calls[i]) == Wait(w)
    requires forall j: nat :: j < |b.calls| && j != i ==> b'.calls[j] == b.calls[j]
    ensures QueueOk(b', w)
  {
    hide ActionOf;
    var q := SemOf(b, w).queue;
    assert i !in q;
    assert forall j: nat :: j in q + [i] <==> j in q || j == i;
  }

  lemma SamePlaces(b: BState, b': BState, i: nat, c: Call)
    requires PlacesOk(b) && i < |b.calls| && c.kind == b.calls[i].kind && c.pc == b.calls[i].pc
    requires b'.calls == b.calls[i := c] && SameSlots(b, b')
    ensures PlacesOk(b')
  {
    TallySame(b.calls, i, c, Put, 3);
    TallySame(b.calls, i, c, Put, 4);
    TallySame(b.calls, i, c, Get, 3);
    TallySame(b.calls, i, c, Get, 4);
  }

  // A signal that finds nobody blocked.
  lemma RaiseKeeps(b: BState, i: nat, w: Which)
    requires Inv(b) && CanStep(b, i) && ActionOf(b.calls[i]) == Signal(w) && SemOf(b, w).val >= 0
    ensures Inv(DoSignal(b, i, w))
  {
    var b', c := DoSignal(b, i, w), b.calls[i].(pc := b.calls[i].pc + 1, blocked := false);
    var m := Sem(SemOf(b, w).val + 1, SemOf(b, w).queue);
    SemsOf(Advance(b, i), w, m);
    WaitIsNoAdvance(b.calls[i], w);
    assert Moved(b, b', i, c, w, m);
    hide *;
    StepKeeps(b, b', i, c, w, m);
  }

  lemma FirstBlocked(b: BState, w: Which)
    requires Inv(b) && SemOf(b, w).val < 0
    ensures var q := SemOf(b, w).queue;
            && q != [] && q[0] < |b.calls| && b.calls[q[0]].blocked && ActionOf(b.calls[q[0]]) == Wait(w) &&
               q[0] !in q[1..]
  {
    assert QueueOk(b, w);
    assert SemOf(b, w).queue[0] in SemOf(b, w).queue;
  }

  // A signal that lets the first blocked call past its wait.
  lemma WakeKeeps(b: BState, i: nat, w: Which)
    requires Inv(b) && CanStep(b, i) && ActionOf(b.calls[i]) == Signal(w) && SemOf(b, w).val < 0
    ensures Inv(DoSignal(b, i, w))
  {
    FirstBlocked(b, w);
    var j := SemOf(b, w).queue[0];
    var c := b.calls[i].(pc := b.calls[i].pc + 1, blocked := false);
    var d := b.calls[j].(pc := b.calls[j].pc + 1, blocked := false);
    WaitIsNoAdvance(b.calls[i], w);
    WaitIsNoAdvance(b.calls[j], w);
    SignalWakes(b, i, w);
    hide *;
    Handed(b, DoSignal(b, i, w), i, c, j, d, w);
  }

  // Call i went on to c and call j, blocked on w till then, to d.
  ghost predicate HandOver(b: BState, b': BState, i: nat, c: Call, j: nat, d: Call, w: Which) {
    && i < |b.calls| && j < |b.calls| && i != j && b'.calls == b.calls[i := c][j := d] && SameSlots(b, b')
    && SemOf(b, w).val < 0 && SemOf(b, w).queue != [] && SemOf(b, w).queue[0] == j
    && SemOf(b', w) == Sem(SemOf(b, w).val + 1, SemOf(b, w).queue[1..])
    && (forall v :: v != w ==> SemOf(b', v) == SemOf(b, v))
    && !b.calls[i].blocked && !c.blocked && !d.blocked && c.kind == b.calls[i].kind && d.kind == b.calls[j].kind
    && c.pc == b.calls[i].pc + 1 && d.pc == b.calls[j].pc + 1
    && ActionOf(b.calls[i]) == Signal(w) && ActionOf(b.calls[j]) == Wait(w)
  }

  lemma SignalWakes(b: BState, i: nat, w: Which)
    requires CanStep(b, i) && ActionOf(b.calls[i]) == Signal(w) && SemOf(b, w).val < 0
    requires SemOf(b, w).queue != [] && SemOf(b, w).queue[0] < |b.calls|
    requires b.calls[SemOf(b, w).queue[0]].blocked && ActionOf(b.calls[SemOf(b, w).queue[0]]) == Wait(w)
    ensures var j := SemOf(b, w).queue[0];
            HandOver(b, DoSignal(b, i, w), i, b.calls[i].(pc := b.calls[i].pc + 1, blocked := false),
                     j, b.calls[j].(pc := b.calls[j].pc + 1, blocked := false), w)
  {
    var m := Sem(SemOf(b, w).val + 1, SemOf(b, w).queue[1..]);
    SemsOf(Advance(b, i), w, m);
    assert forall v :: SemOf(Advance(b, i), v) == SemOf(b, v);
  }

  lemma HandOverParts(b: BState, b': BState, i: nat, c: Call, j: nat, d: Call, w: Which)
    requires HandOver(b, b', i, c, j, d, w)
    ensures i < |b.calls| && j < |b.calls| && i != j && b'.calls == b.calls[i := c][j := d] && SameSlots(b, b') &&
            b'.cap == b.cap
    ensures SemOf(b, w).val < 0 && SemOf(b, w).queue != [] && SemOf(b, w).queue[0] == j
    ensures SemOf(b', w) == Sem(SemOf(b, w).val + 1, SemOf(b, w).queue[1..])
    ensures forall v :: v != w ==> SemOf(b', v) == SemOf(b, v)
    ensures !b.calls[i].blocked && !c.blocked && !d.blocked && c.kind == b.calls[i].kind && d.kind == b.calls[j].kind
    ensures c.pc == b.calls[i].pc + 1 && d.pc == b.calls[j].pc + 1
    ensures ActionOf(b.calls[i]) == Signal(w) && ActionOf(b.calls[j]) == Wait(w)
    ensures Available(SemOf(b', w)) == Available(SemOf(b, w))
  {
  }

  lemma Handed(b: BState, b': BState, i: nat, c: Call, j: nat, d: Call, w: Which)
    requires Inv(b) && HandOver(b, b', i, c, j, d, w)
    requires !(c.kind == Put && (c.pc == 3 || c.pc == 4)) && !(c.kind == Get && (c.pc == 3 || c.pc == 4))
    requires !(d.kind == Put && (d.pc == 3 || d.pc == 4)) && !(d.kind == Get && (d.pc == 3 || d.pc == 4))
    ensures Inv(b')
  {
    hide *;
    InvParts(b);
    HandOverParts(b, b', i, c, j, d, w);
    forall v
      ensures Available(SemOf(b', v)) == Level(b'.cap, b'.calls, v) && QueueOk(b', v)
    {
      LevelsHanded(b, b', i, c, j, d, w, v);
      if v == w {
        QueueLeft(b, b', i, w);
      } else {
        QueueUntouched(b, b', i, j, v);
      }
    }
    forall x: nat | x < |b'.calls| && b'.calls[x].blocked
      ensures ActionOf(b'.calls[x]).Wait?
    {
      assert b'.calls[x] == b.calls[x];
      BlockedWaits(b, x);
    }
    PlacesHanded(b, b', i, c, j, d);
    SameContents(b, b');
    MakeInv(b');
  }

  lemma LevelsHanded(b: BState, b': BState, i: nat, c: Call, j: nat, d: Call, w: Which, v: Which)
    requires HandOver(b, b', i, c, j, d, w)
    ensures Level(b'.cap, b'.calls, v) == Level(b.cap, b.calls, v)
  {
    HandOverParts(b, b', i, c, j, d, w);
    hide HandOver, Level, ActionOf, SemOf;
    LevelStep(b.cap, b.calls, i, c, v);
    LevelStep(b.cap, b.calls[i := c], j, d, v);
  }

  lemma PlacesHanded(b: BState, b': BState, i: nat, c: Call, j: nat, d: Call)
    requires PlacesOk(b) && SameSlots(b, b') && i < |b.calls| && j < |b.calls| && i != j &&
             b'.calls == b.calls[i := c][j := d]
    requires c.kind == b.calls[i].kind && c.pc == b.calls[i].pc + 1 && d.kind == b.calls[j].kind &&
             d.pc == b.calls[j].pc + 1
    requires !(c.kind == Put && (c.pc == 3 || c.pc == 4)) && !(c.kind == Get && (c.pc == 3 || c.pc == 4))
    requires !(d.kind == Put && (d.pc == 3 || d.pc == 4)) && !(d.kind == Get && (d.pc == 3 || d.pc == 4))
    ensures PlacesOk(b')
  {
    hide PlacesOk, Tally;
    var mid := b.(calls := b.calls[i := c]);
    OtherPlaces(b, mid, i, c);
    OtherPlaces(mid, b', j, d);
  }

  lemma QueueLeft(b: BState, b': BState, i: nat, w: Which)
    requires QueueOk(b, w) && i < |b.calls| && !b.calls[i].blocked && SemOf(b, w).val < 0 && SemOf(b, w).queue != []
    requires SemOf(b', w) == Sem(SemOf(b, w).val + 1, SemOf(b, w).queue[1..])
    requires |b'.calls| == |b.calls| && !b'.calls[i].blocked && SemOf(b, w).queue[0] < |b.calls| &&
             !b'.calls[SemOf(b, w).queue[0]].blocked
    requires forall j: nat :: j < |b.calls| && j != i && j != SemOf(b, w).queue[0] ==> b'.calls[j] == b.calls[j]
    ensures QueueOk(b', w)
  {
    hide ActionOf;
    TailMember(SemOf(b, w).queue);
  }

  // Calls i and j moved, neither of them to or from the queue of v.
  lemma QueueUntouched(b: BState, b': BState, i: nat, j: nat, v: Which)
    requires QueueOk(b, v) && i < |b.calls| && j < |b.calls| && SemOf(b', v) == SemOf(b, v) && |b'.calls| == |b.calls|
    requires !b.calls[i].blocked && !b'.calls[i].blocked && ActionOf(b.calls[j]) != Wait(v) && !b'.calls[j].blocked
    requires forall x: nat :: x < |b.calls| && x != i && x != j ==> b'.calls[x] == b.calls[x]
    ensures QueueOk(b', v)
  {
    hide ActionOf;
  }

  // One semaphore replaced.
  lemma SemsOf(b: BState, w: Which, m: Sem)
    ensures forall v :: SemOf(WithSem(b, w, m), v) == if v == w then m else SemOf(b, v)
    ensures WithSem(b, w, m).calls == b.calls && WithSem(b, w, m).cap == b.cap
  {
  }

  // A step that touches neither slots nor positions nor histories.
  lemma OtherPlaces(b: BState, b': BState, i: nat, c: Call)
    requires PlacesOk(b) && i < |b.calls| && c.kind == b.calls[i].kind && c.pc == b.calls[i].pc + 1
    requires !(c.kind == Put && (c.pc == 3 || c.pc == 4)) && !(c.kind == Get && (c.pc == 3 || c.pc == 4))
    requires b'.calls == b.calls[i := c] && b'.buf == b.buf && b'.written == b.written && b'.read == b.read
    requires b'.head == b.head && b'.tail == b.tail && b'.cap == b.cap
    ensures PlacesOk(b')
  {
    TallyStep(b.calls, i, c, Put, 3);
    TallyStep(b.calls, i, c, Put, 4);
    TallyStep(b.calls, i, c, Get, 3);
    TallyStep(b.calls, i, c, Get, 4);
  }

  // ----- the statements between the semaphore operations

  // The call behind call i's step, which is neither a wait nor a signal.
  ghost predicate Stepped(b: BState, b': BState, i: nat, c: Call) {
    && i < |b.calls| && !b.calls[i].blocked && !c.blocked && c.kind == b.calls[i].kind && c.pc == b.calls[i].pc + 1
    && b'.calls == b.calls[i := c] && b'.cap == b.cap && (forall w :: SemOf(b', w) == SemOf(b, w))
    && !ActionOf(b.calls[i]).Wait? && !ActionOf(b.calls[i]).Signal?
  }

  lemma BodyKeeps(b: BState, b': BState, i: nat, c: Call)
    requires Inv(b) && Stepped(b, b', i, c) && PlacesOk(b') && ContentsOk(b')
    ensures Inv(b')
  {
    InvParts(b);
    assert forall v :: Effect(ActionOf(b.calls[i]), v) == 0;
    hide Inv, LevelsOk, QueuesOk, QueueOk, PlacesOk, ContentsOk, Level, ActionOf, Effect, SemOf;
    forall v
      ensures Available(SemOf(b', v)) == Level(b'.cap, b'.calls, v) && QueueOk(b', v)
    {
      LevelStep(b.cap, b.calls, i, c, v);
      QueueKept(b, b', i, v);
    }
    forall j: nat | j < |b'.calls| && b'.calls[j].blocked
      ensures ActionOf(b'.calls[j]).Wait?
    {
      BlockedWaits(b, j);
    }
    MakeInv(b');
  }

  // A put about to write: every earlier put has moved on the tail, there is room, and the slot's last value,
  // if it had one, was read.
  lemma BeforeWrite(b: BState, i: nat)
    requires Inv(b) && i < |b.calls| && ActionOf(b.calls[i]) == Write
    ensures |b.buf| > 0 && b.tail == |b.written| % |b.buf| && |b.written| < |b.read| + b.cap
    ensures |b.written| >= |b.buf| ==> |b.written| - |b.buf| < |b.read|
  {
    var cs := b.calls;
    assert Available(SemOf(b, Tail)) == Level(b.cap, cs, Tail) && Available(SemOf(b, Space)) == Level(b.cap, cs, Space);
    assert cs[i].kind == Put && cs[i].pc == 2;
    hide Inv, LevelsOk, QueuesOk, ContentsOk, Tally, ActionOf, SemOf;
    TallyStrict(cs, Put, i);
    TallyOrder(cs, Put, 3, 4);
    TallyOrder(cs, Put, 4, 5);
    TallyOrder(cs, Put, 1, 2);
    TallyOrder(cs, Get, 3, 6);
    TallyOrder(cs, Count, 2, 4);
    PlacesParts(b);
  }

  lemma PlacesParts(b: BState)
    requires PlacesOk(b)
    ensures |b.buf| >= b.cap
    ensures |b.written| == Tally(b.calls, Put, 3) && |b.read| == Tally(b.calls, Get, 3)
    ensures b.tail == Position(Tally(b.calls, Put, 4), |b.buf|) && b.head == Position(Tally(b.calls, Get, 4), |b.buf|)
  {
  }

  // A bigger quotient is a bigger number.
  lemma QuotientOrder(p: nat, q: nat, s: nat)
    requires p < q
    ensures p * s + s <= q * s
  {
    ScaleLess(p, q, s);
  }

  lemma DivMod(x: nat, s: nat) returns (q: nat)
    requires s > 0
    ensures x == q * s + x % s
  {
    q := x / s;
  }

  lemma ModApart(j: nat, n: nat, s: nat)
    requires 0 < n - j < s
    ensures j % s != n % s
  {
    var p := DivMod(j, s);
    var q := DivMod(n, s);
    if p < q {
      QuotientOrder(p, q, s);
    } else if q < p {
      QuotientOrder(q, p, s);
    }
  }

  lemma ModUnique(x: nat, s: nat, q: nat, r: nat)
    requires r < s && x == q * s + r
    ensures x % s == r
  {
    var p := DivMod(x, s);
    if p < q {
      QuotientOrder(p, q, s);
    } else if q < p {
      QuotientOrder(q, p, s);
    }
  }

  lemma ModNext(x: nat, s: nat)
    requires s > 0
    ensures (x % s + 1) % s == (x + 1) % s
  {
    var q := DivMod(x, s);
    if x % s + 1 < s {
      ModUnique(x + 1, s, q, x % s + 1);
      ModUnique(x % s + 1, s, 0, x % s + 1);
    } else {
      assert x + 1 == (q + 1) * s + 0;
      ModUnique(x + 1, s, q + 1, 0);
      ModUnique(s, s, 1, 0);
    }
  }

  lemma WriteKeeps(b: BState, i: nat)
    requires Inv(b) && CanStep(b, i) && ActionOf(b.calls[i]) == Write && InSlots(b, i)
    ensures Inv(Step(b, i))
  {
    BeforeWrite(b, i);
    var b', c := Step(b, i), b.calls[i].(pc := b.calls[i].pc + 1, blocked := false);
    assert c.kind == Put && c.pc == 3;
    assert Stepped(b, b', i, c) by {
      assert forall w :: SemOf(b', w) == SemOf(b, w);
    }
    TallyStep(b.calls, i, c, Put, 3);
    TallyStep(b.calls, i, c, Put, 4);
    TallyStep(b.calls, i, c, Get, 3);
    TallyStep(b.calls, i, c, Get, 4);
    assert PlacesOk(b') by {
      hide Tally;
    }
    forall j: nat | |b'.read| <= j < |b'.written|
      ensures b'.buf[j % |b'.buf|] == b'.written[j]
    {
      if j < |b.written| {
        ModApart(j, |b.written|, |b.buf|);
      }
    }
    hide Step, ActionOf, Tally, LevelsOk, QueuesOk;
    BodyKeeps(b, b', i, c);
  }

  lemma AdvanceTailKeeps(b: BState, i: nat)
    requires Inv(b) && CanStep(b, i) && ActionOf(b.calls[i]) == AdvanceTail && InSlots(b, i)
    ensures Inv(Step(b, i))
  {
    var b', c := Step(b, i), b.calls[i].(pc := b.calls[i].pc + 1, blocked := false);
    assert c.kind == Put && c.pc == 4;
    assert Stepped(b, b', i, c) by {
      assert forall w :: SemOf(b', w) == SemOf(b, w);
    }
    TallyStep(b.calls, i, c, Put, 3);
    TallyStep(b.calls, i, c, Put, 4);
    TallyStep(b.calls, i, c, Get, 3);
    TallyStep(b.calls, i, c, Get, 4);
    ModNext(Tally(b.calls, Put, 4), |b.buf|);
    assert PlacesOk(b') by {
      hide Tally;
    }
    hide Step, ActionOf, Tally, LevelsOk, QueuesOk;
    BodyKeeps(b, b', i, c);
  }

  // A get about to read: every earlier get has moved on the head, and there is something to read.
  lemma BeforeRead(b: BState, i: nat)
    requires Inv(b) && i < |b.calls| && ActionOf(b.calls[i]) == Read
    ensures |b.buf| > 0 && b.head == |b.read| % |b.buf| && |b.read| < |b.written|
  {
    var cs := b.calls;
    assert Available(SemOf(b, Head)) == Level(b.cap, cs, Head) && Available(SemOf(b, Item)) == Level(b.cap, cs, Item);
    assert cs[i].kind == Get && cs[i].pc == 2;
    hide Inv, LevelsOk, QueuesOk, ContentsOk, Tally, ActionOf, SemOf;
    TallyStrict(cs, Get, i);
    TallyOrder(cs, Get, 3, 4);
    TallyOrder(cs, Get, 4, 5);
    TallyOrder(cs, Get, 1, 2);
    TallyOrder(cs, Put, 3, 6);
    TallyOrder(cs, Count, 1, 5);
    PlacesParts(b);
  }

  lemma ReadKeeps(b: BState, i: nat)
    requires Inv(b) && CanStep(b, i) && ActionOf(b.calls[i]) == Read && InSlots(b, i)
    ensures Inv(Step(b, i))
  {
    BeforeRead(b, i);
    var b', c := Step(b, i), b.calls[i].(val := b.buf[b.head], pc := b.calls[i].pc + 1, blocked := false);
    assert c.kind == Get && c.pc == 3;
    assert Stepped(b, b', i, c) by {
      assert forall w :: SemOf(b', w) == SemOf(b, w);
    }
    TallyStep(b.calls, i, c, Put, 3);
    TallyStep(b.calls, i, c, Put, 4);
    TallyStep(b.calls, i, c, Get, 3);
    TallyStep(b.calls, i, c, Get, 4);
    assert PlacesOk(b') by {
      hide Tally;
    }
    assert b'.read == b.written[..|b.read|] + [b.written[|b.read|]] == b.written[..|b.read| + 1];
    assert ContentsOk(b') by {
      hide Tally;
    }
    hide Step, ActionOf, Tally, LevelsOk, QueuesOk, ContentsOk, PlacesOk;
    BodyKeeps(b, b', i, c);
  }

  lemma AdvanceHeadKeeps(b: BState, i: nat)
    requires Inv(b) && CanStep(b, i) && ActionOf(b.calls[i]) == AdvanceHead && InSlots(b, i)
    ensures Inv(Step(b, i))
  {
    var b', c := Step(b, i), b.calls[i].(pc := b.calls[i].pc + 1, blocked := false);
    assert c.kind == Get && c.pc == 4;
    assert Stepped(b, b', i, c) by {
      assert forall w :: SemOf(b', w) == SemOf(b, w);
    }
    TallyStep(b.calls, i, c, Put, 3);
    TallyStep(b.calls, i, c, Put, 4);
    TallyStep(b.calls, i, c, Get, 3);
    TallyStep(b.calls, i, c, Get, 4);
    ModNext(Tally(b.calls, Get, 4), |b.buf|);
    assert PlacesOk(b') by {
      hide Tally;
    }
    hide Step, ActionOf, Tally, LevelsOk, QueuesOk;
    BodyKeeps(b, b', i, c);
  }

  lemma ComputeKeeps(b: BState, i: nat)
    requires Inv(b) && CanStep(b, i) && ActionOf(b.calls[i]) == Compute && InSlots(b, i)
    ensures Inv(Step(b, i))
  {
    var b', c := Step(b, i),
      b.calls[i].(val := CountOf(|b.buf|, b.head, b.tail), pc := b.calls[i].pc + 1, blocked := false);
    assert c.kind == Count && c.pc == 3;
    assert Stepped(b, b', i, c) by {
      assert forall w :: SemOf(b', w) == SemOf(b, w);
    }
    TallyStep(b.calls, i, c, Put, 3);
    TallyStep(b.calls, i, c, Put, 4);
    TallyStep(b.calls, i, c, Get, 3);
    TallyStep(b.calls, i, c, Get, 4);
    assert PlacesOk(b') by {
      hide Tally;
    }
    hide Step, ActionOf, Tally, LevelsOk, QueuesOk;
    BodyKeeps(b, b', i, c);
  }

  lemma BeginKeeps(b: BState, k: Kind, v: int)
    requires Inv(b)
    ensures Inv(Begin(b, k, v))
  {
    var b', c := Begin(b, k, v), Call(k, 0, false, v);
    forall x, n: nat | n > 0
      ensures Tally(b'.calls, x, n) == Tally(b.calls, x, n)
    {
      TallyNew(b.calls, c, x, n);
    }
    hide Tally, ActionOf;
    assert forall w :: SemOf(b', w) == SemOf(b, w);
    forall w
      ensures QueueOk(b', w)
    {
      assert QueueOk(b, w);
    }
    assert LevelsOk(b') && PlacesOk(b') && ContentsOk(b');
    assert QueuesOk(b');
  }

  // A put or a get past its first wait needs a slot: with no room for items none gets there.
  lemma RoomForSome(b: BState, i: nat)
    requires Inv(b) && i < |b.calls| && b.calls[i].kind != Count && 1 <= b.calls[i].pc < 6
    ensures b.cap > 0 && |b.buf| > 0
  {
    var cs, c := b.calls, b.calls[i];
    assert Available(SemOf(b, Item)) == Level(b.cap, cs, Item) && Available(SemOf(b, Space)) == Level(b.cap, cs, Space);
    hide Inv, LevelsOk, QueuesOk, ContentsOk, Tally, ActionOf, SemOf;
    TallyStrict(cs, c.kind, i);
    TallyOrder(cs, c.kind, 1, c.pc);
    TallyOrder(cs, c.kind, c.pc + 1, 6);
    TallyOrder(cs, Put, 1, 6);
    TallyOrder(cs, Get, 1, 6);
    PlacesParts(b);
  }

  // Positions lie within the slots whenever they are used.
  lemma PositionsInside(b: BState, i: nat)
    requires Inv(b) && CanStep(b, i)
    ensures InSlots(b, i)
  {
    var a := ActionOf(b.calls[i]);
    if a == Write || a == AdvanceTail || a == Read || a == AdvanceHead {
      RoomForSome(b, i);
      PlacesParts(b);
    }
  }

  lemma StepKeepsAll(b: BState, i: nat)
    requires Inv(b) && CanStep(b, i) && InSlots(b, i)
    ensures Inv(Step(b, i))
  {
    hide Inv, DoWait, DoSignal;
    match ActionOf(b.calls[i])
    case Wait(w) =>
      if SemOf(b, w).val >= 1 {
        PassKeeps(b, i, w);
      } else {
        BlockKeeps(b, i, w);
      }
    case Signal(w) =>
      if SemOf(b, w).val >= 0 {
        RaiseKeeps(b, i, w);
      } else {
        WakeKeeps(b, i, w);
      }
    case Write => WriteKeeps(b, i);
    case AdvanceTail => AdvanceTailKeeps(b, i);
    case Read => ReadKeeps(b, i);
    case AdvanceHead => AdvanceHeadKeeps(b, i);
    case Compute => ComputeKeeps(b, i);
    case Finished =>
  }

  lemma InitInv(cap: nat, slots: seq<int>)
    requires |slots| >= cap
    ensures Inv(Init(cap, slots))
  {
    var b := Init(cap, slots);
    assert forall k, n: nat :: Tally(b.calls, k, n) == 0;
    assert forall w :: QueueOk(b, w);
    assert LevelsOk(b) && QueuesOk(b) && PlacesOk(b) && ContentsOk(b);
  }

  lemma {:induction false} RunInv(b: BState, es: seq<Event>, b': BState)
    requires Inv(b) && Run(b, es, b')
    ensures Inv(b')
    decreases |es|
  {
    hide Inv, Step, Begin;
    if es != [] {
      match es[0]
      case Enter(k, v) =>
        BeginKeeps(b, k, v);
        RunInv(Begin(b, k, v), es[1..], b');
      case Go(i) =>
        StepKeepsAll(b, i);
        RunInv(Step(b, i), es[1..], b');
    }
  }
}
