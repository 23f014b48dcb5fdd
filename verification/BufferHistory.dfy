// Whole calls of the bounded buffer: what each was called with and what it returns, whatever the
// interleaving. Nothing here depends on the values the protocol records for itself.
module BufferHistory {
  import opened Sequences
  import opened BufferSpec
  import opened BufferProtocol
  import BufferTheorems
  import KernelSpec
  import KernelPlaces
  import KernelSteps
  import opened BufferOnKernel

  // What happened in a run: the calls as they began; the puts in the order in which they wrote, the gets in
  // the order in which they read, the getCnts in the order in which they computed, by their numbers; and
  // for each of the last how many items were stored then, put and not yet got.
  datatype History = History(begun: seq<Event>, writers: seq<nat>, readers: seq<nat>, counters: seq<nat>,
                             counts: seq<int>)

  const NOTHING := History([], [], [], [], [])

  // Call i does a.
  function Noted(h: History, i: nat, a: Action): History {
    match a
    case Write => h.(writers := h.writers + [i])
    case Read => h.(readers := h.readers + [i])
    case Compute => h.(counters := h.counters + [i], counts := h.counts + [|h.writers| - |h.readers|])
    case _ => h
  }

  ghost function HistoryOf(h: History, b: BState, es: seq<Event>): History
    decreases |es|
  {
    if es == [] then h
    else match es[0]
      case Enter(k, v) => HistoryOf(h.(begun := h.begun + [es[0]]), Begin(b, k, v), es[1..])
      case Go(i) =>
        if CanStep(b, i) && InSlots(b, i) then
          HistoryOf(Noted(h, i, ActionOf(b.calls[i])), BufferSpec.Step(b, i), es[1..])
        else h
  }

  // What getCnt computes with n items stored: n, but 0 when every slot is taken.
  function Shown(n: int, slots: nat): int {
    if n < slots then n else 0
  }

  // The calls of kind k that have done their access to the slots, or computed, are just those of done.
  ghost predicate Accessed(cs: seq<Call>, k: Kind, done: seq<nat>) {
    NoDup(done) && forall i: nat :: i in done <==> i < |cs| && cs[i].kind == k && cs[i].pc >= 3
  }

  ghost predicate BeganAs(cs: seq<Call>, begun: seq<Event>) {
    && |begun| == |cs|
    && forall i: nat :: i < |cs| ==>
         begun[i].Enter? && begun[i].k == cs[i].kind && (cs[i].kind == Put ==> cs[i].val == begun[i].v)
  }

  ghost predicate Wrote(cs: seq<Call>, writers: seq<nat>, written: seq<int>) {
    Accessed(cs, Put, writers) && |writers| == |written| &&
      forall p: nat :: p < |writers| ==> writers[p] < |cs| && cs[writers[p]].val == written[p]
  }

  ghost predicate Got(cs: seq<Call>, readers: seq<nat>, read: seq<int>) {
    Accessed(cs, Get, readers) && |readers| == |read| &&
      forall p: nat :: p < |readers| ==> readers[p] < |cs| && cs[readers[p]].val == read[p]
  }

  ghost predicate Counted(cs: seq<Call>, slots: nat, counters: seq<nat>, counts: seq<int>) {
    Accessed(cs, Count, counters) && |counters| == |counts| &&
      forall p: nat :: p < |counters| ==> counters[p] < |cs| && cs[counters[p]].val == Shown(counts[p], slots)
  }

  // The calls of b have done what h says.
  ghost predicate Tells(b: BState, h: History) {
    && BeganAs(b.calls, h.begun) && Wrote(b.calls, h.writers, b.written) && Got(b.calls, h.readers, b.read)
    && Counted(b.calls, |b.buf|, h.counters, h.counts)
  }

  // ----- one step

  // Calls stay as they were, but for the steps they have done.
  predicate SameCalls(cs: seq<Call>, cs': seq<Call>, i: nat) {
    |cs'| == |cs| && forall j: nat :: j < |cs| && j != i ==>
      cs'[j].kind == cs[j].kind && cs'[j].val == cs[j].val && (cs'[j].pc >= 3 <==> cs[j].pc >= 3)
  }

  // What a step of call i that is action a does to the calls.
  ghost predicate After(b: BState, i: nat, a: Action, b': BState) {
    && i < |b.calls| && SameCalls(b.calls, b'.calls, i) && b'.calls[i].kind == b.calls[i].kind && |b'.buf| == |b.buf|
    && (b'.calls[i].pc >= 3 <==> b.calls[i].pc >= 3 || a == Write || a == Read || a == Compute)
    && (if a == Read then b.head < |b.buf| && b'.calls[i].val == b.buf[b.head] && b'.read == b.read + [b.buf[b.head]]
        else b'.read == b.read)
    && (a == Compute ==> b'.calls[i].val == CountOf(|b.buf|, b.head, b.tail))
    && (a != Read && a != Compute ==> b'.calls[i].val == b.calls[i].val)
    && b'.written == if a == Write then b.written + [b.calls[i].val] else b.written
  }

  lemma CallsAfter(b: BState, i: nat)
    requires Inv(b) && CanStep(b, i) && InSlots(b, i)
    ensures After(b, i, ActionOf(b.calls[i]), BufferSpec.Step(b, i))
  {
    match ActionOf(b.calls[i])
    case Wait(w) => WaitCalls(b, i, w);
    case Signal(w) =>
      if SemOf(b, w).val < 0 {
        FirstBlocked(b, w);
      }
      SignalCalls(b, i, w);
    case _ => BodyCalls(b, i);
  }

  lemma WaitCalls(b: BState, i: nat, w: Which)
    requires CanStep(b, i) && ActionOf(b.calls[i]) == Wait(w)
    ensures After(b, i, Wait(w), DoWait(b, i, w))
  {
  }

  lemma SignalCalls(b: BState, i: nat, w: Which)
    requires CanStep(b, i) && ActionOf(b.calls[i]) == Signal(w)
    requires var m := SemOf(b, w); m.val < 0 ==>
               m.queue != [] && m.queue[0] < |b.calls| && ActionOf(b.calls[m.queue[0]]) == Wait(w) && m.queue[0] != i
    ensures After(b, i, Signal(w), DoSignal(b, i, w))
  {
  }

  lemma BodyCalls(b: BState, i: nat)
    requires CanStep(b, i) && InSlots(b, i) && !ActionOf(b.calls[i]).Wait? && !ActionOf(b.calls[i]).Signal?
    ensures After(b, i, ActionOf(b.calls[i]), BufferSpec.Step(b, i))
  {
  }

  lemma AccessKept(cs: seq<Call>, cs': seq<Call>, i: nat, k: Kind, done: seq<nat>)
    requires Accessed(cs, k, done) && SameCalls(cs, cs', i) && i < |cs|
    requires cs'[i].kind == cs[i].kind && (cs[i].kind == k ==> (cs'[i].pc >= 3 <==> cs[i].pc >= 3))
    ensures Accessed(cs', k, done)
  {
  }

  lemma AccessDone(cs: seq<Call>, cs': seq<Call>, i: nat, k: Kind, done: seq<nat>)
    requires Accessed(cs, k, done) && SameCalls(cs, cs', i) && i < |cs|
    requires cs'[i].kind == cs[i].kind == k && cs[i].pc < 3 <= cs'[i].pc
    ensures Accessed(cs', k, done + [i]) && i !in done
  {
    assert forall j: nat :: j in done + [i] <==> j in done || j == i;
  }

  lemma TellsParts(b: BState, h: History)
    requires Tells(b, h)
    ensures BeganAs(b.calls, h.begun) && Wrote(b.calls, h.writers, b.written) && Got(b.calls, h.readers, b.read)
    ensures Counted(b.calls, |b.buf|, h.counters, h.counts)
    ensures |b.written| == |h.writers| && |b.read| == |h.readers|
  {
  }

  lemma MakeTells(b: BState, h: History)
    requires BeganAs(b.calls, h.begun) && Wrote(b.calls, h.writers, b.written) && Got(b.calls, h.readers, b.read)
    requires Counted(b.calls, |b.buf|, h.counters, h.counts)
    ensures Tells(b, h)
  {
  }

  // Calls other than i are told of as before, and so is i unless it did its access.
  lemma OthersTold(cs: seq<Call>, cs': seq<Call>, i: nat, h: History, written: seq<int>, read: seq<int>, slots: nat)
    requires BeganAs(cs, h.begun) && Wrote(cs, h.writers, written) && Got(cs, h.readers, read)
    requires Counted(cs, slots, h.counters, h.counts) && SameCalls(cs, cs', i) && i < |cs|
    requires cs'[i].kind == cs[i].kind && (cs[i].val == cs'[i].val || (cs[i].kind != Put && cs[i].pc < 3))
    ensures BeganAs(cs', h.begun)
    ensures (cs'[i].pc >= 3 <==> cs[i].pc >= 3) || cs[i].kind != Put ==> Wrote(cs', h.writers, written)
    ensures (cs'[i].pc >= 3 <==> cs[i].pc >= 3) || cs[i].kind != Get ==> Got(cs', h.readers, read)
    ensures (cs'[i].pc >= 3 <==> cs[i].pc >= 3) || cs[i].kind != Count ==> Counted(cs', slots, h.counters, h.counts)
  {
    forall k, done | Accessed(cs, k, done) && ((cs'[i].pc >= 3 <==> cs[i].pc >= 3) || cs[i].kind != k)
      ensures Accessed(cs', k, done)
    {
      AccessKept(cs, cs', i, k, done);
    }
    assert forall p: nat :: p < |h.writers| ==> h.writers[p] in h.writers;
    assert forall p: nat :: p < |h.readers| ==> h.readers[p] in h.readers;
    assert forall p: nat :: p < |h.counters| ==> h.counters[p] in h.counters;
  }

  lemma WriteTold(cs: seq<Call>, cs': seq<Call>, i: nat, writers: seq<nat>, written: seq<int>)
    requires Wrote(cs, writers, written) && SameCalls(cs, cs', i) && i < |cs|
    requires cs'[i].kind == cs[i].kind == Put && cs[i].pc < 3 <= cs'[i].pc
    ensures Wrote(cs', writers + [i], written + [cs'[i].val])
  {
    AccessDone(cs, cs', i, Put, writers);
    assert forall p: nat :: p < |writers| ==> writers[p] in writers;
  }

  lemma ReadTold(cs: seq<Call>, cs': seq<Call>, i: nat, readers: seq<nat>, read: seq<int>)
    requires Got(cs, readers, read) && SameCalls(cs, cs', i) && i < |cs|
    requires cs'[i].kind == cs[i].kind == Get && cs[i].pc < 3 <= cs'[i].pc
    ensures Got(cs', readers + [i], read + [cs'[i].val])
  {
    AccessDone(cs, cs', i, Get, readers);
    assert forall p: nat :: p < |readers| ==> readers[p] in readers;
  }

  lemma CountTold(cs: seq<Call>, cs': seq<Call>, i: nat, slots: nat, counters: seq<nat>, counts: seq<int>, n: int)
    requires Counted(cs, slots, counters, counts) && SameCalls(cs, cs', i) && i < |cs|
    requires cs'[i].kind == cs[i].kind == Count && cs[i].pc < 3 <= cs'[i].pc && cs'[i].val == Shown(n, slots)
    ensures Counted(cs', slots, counters + [i], counts + [n])
  {
    AccessDone(cs, cs', i, Count, counters);
    assert forall p: nat :: p < |counters| ==> counters[p] in counters;
  }

  // The kinds of the calls that do these things.
  lemma KindOf(c: Call)
    ensures ActionOf(c) == Write ==> c.kind == Put && c.pc == 2
    ensures ActionOf(c) == Read ==> c.kind == Get && c.pc == 2
    ensures ActionOf(c) == Compute ==> c.kind == Count && c.pc == 2
  {
  }

  lemma CountShown(b: BState, i: nat)
    requires Inv(b) && i < |b.calls| && ActionOf(b.calls[i]) == Compute
    ensures CountOf(|b.buf|, b.head, b.tail) == Shown(|b.written| - |b.read|, |b.buf|)
  {
    BufferTheorems.CountExact(b, i);
    assert ContentsOk(b) && PlacesOk(b);
  }

  lemma StepTells(b: BState, i: nat, h: History)
    requires Inv(b) && CanStep(b, i) && InSlots(b, i) && Tells(b, h)
    ensures Tells(BufferSpec.Step(b, i), Noted(h, i, ActionOf(b.calls[i])))
  {
    var a, b' := ActionOf(b.calls[i]), BufferSpec.Step(b, i);
    var cs, cs' := b.calls, b'.calls;
    assert i < |cs|;
    CallsAfter(b, i);
    KindOf(cs[i]);
    TellsParts(b, h);
    if a == Compute {
      CountShown(b, i);
    }
    hide Inv, Tells, BeganAs, Wrote, Got, Counted, ActionOf, BufferSpec.Step, CanStep, InSlots, SameCalls, CountOf;
    hide Shown;
    OthersTold(cs, cs', i, h, b.written, b.read, |b.buf|);
    match a {
      case Write => WriteTold(cs, cs', i, h.writers, b.written);
      case Read => ReadTold(cs, cs', i, h.readers, b.read);
      case Compute => CountTold(cs, cs', i, |b.buf|, h.counters, h.counts, |b.written| - |b.read|);
      case _ =>
    }
    MakeTells(b', Noted(h, i, a));
  }

  lemma BeginTells(b: BState, k: Kind, v: int, h: History)
    requires Tells(b, h)
    ensures Tells(Begin(b, k, v), h.(begun := h.begun + [Enter(k, v)]))
  {
    var cs, cs' := b.calls, Begin(b, k, v).calls;
    forall x, done | Accessed(cs, x, done)
      ensures Accessed(cs', x, done)
    {
    }
  }

  // ----- whole runs

  lemma {:induction false} RunTells(b: BState, h: History, es: seq<Event>, b': BState)
    requires Inv(b) && Tells(b, h) && Run(b, es, b')
    ensures Inv(b') && Tells(b', HistoryOf(h, b, es))
    decreases |es|
  {
    hide Inv, Tells, BufferSpec.Step, Begin, Noted;
    if es != [] {
      match es[0]
      case Enter(k, v) =>
        BeginKeeps(b, k, v);
        BeginTells(b, k, v, h);
        RunTells(Begin(b, k, v), h.(begun := h.begun + [es[0]]), es[1..], b');
      case Go(i) =>
        StepKeepsAll(b, i);
        StepTells(b, i, h);
        RunTells(BufferSpec.Step(b, i), Noted(h, i, ActionOf(b.calls[i])), es[1..], b');
    }
  }

  lemma InitTells(cap: nat, slots: seq<int>)
    ensures Tells(Init(cap, slots), NOTHING)
  {
  }

  // The p-th get returns what the p-th put was called with, and p gets are never ahead of p puts nor more
  // than cap behind; what getCnt returns is the number of items stored when it computed it, or 0 with every
  // slot taken. cs are the calls so far, of a buffer for cap items.
  ghost predicate Answers(cs: seq<Call>, cap: nat, slots: nat, h: History) {
    && |h.begun| == |cs| && |h.readers| <= |h.writers| <= |h.readers| + cap && |h.counters| == |h.counts|
    && (forall i: nat :: i < |cs| ==> h.begun[i].Enter? && h.begun[i].k == cs[i].kind)
    && Accessed(cs, Put, h.writers) && Accessed(cs, Get, h.readers) && Accessed(cs, Count, h.counters)
    && (forall p: nat :: p < |h.readers| ==> GetsWhatWasPut(cs, h, p))
    && (forall p: nat :: p < |h.counters| ==> CountsWhatIsStored(cs, h, slots, p))
  }

  predicate GetsWhatWasPut(cs: seq<Call>, h: History, p: nat) {
    && p < |h.readers| && p < |h.writers| && h.readers[p] < |cs| && h.writers[p] < |h.begun|
    && h.begun[h.writers[p]].Enter?
    && cs[h.readers[p]].val == h.begun[h.writers[p]].v
  }

  predicate CountsWhatIsStored(cs: seq<Call>, h: History, slots: nat, p: nat) {
    && p < |h.counters| && p < |h.counts| && h.counters[p] < |cs|
    && cs[h.counters[p]].val == Shown(h.counts[p], slots)
  }

  lemma TellsAnswers(b: BState, h: History)
    requires Inv(b) && Tells(b, h)
    ensures Answers(b.calls, b.cap, |b.buf|, h)
  {
    var cs := b.calls;
    assert ContentsOk(b);
    hide Inv, ContentsOk, Shown;
    FirstOnes(b);
    assert forall p: nat :: p < |h.writers| ==> h.writers[p] in h.writers;
    forall p: nat | p < |h.readers|
      ensures GetsWhatWasPut(cs, h, p)
    {
      assert cs[h.readers[p]].val == b.read[p] == b.written[p] == cs[h.writers[p]].val;
    }
    forall p: nat | p < |h.counters|
      ensures CountsWhatIsStored(cs, h, |b.buf|, p)
    {
    }
  }

  lemma FirstOnes(b: BState)
    requires ContentsOk(b)
    ensures |b.read| <= |b.written| <= |b.read| + b.cap && forall p: nat :: p < |b.read| ==> b.read[p] == b.written[p]
  {
    assert b.read == b.written[..|b.read|];
  }

  // In every state any run from a new buffer can reach, gets have returned the arguments of the puts, in
  // their order, and getCnts what was stored.
  lemma CallsAnswered(cap: nat, slots: seq<int>, es: seq<Event>, b: BState)
    requires |slots| >= cap && Run(Init(cap, slots), es, b)
    ensures Answers(b.calls, cap, |slots|, HistoryOf(NOTHING, Init(cap, slots), es))
  {
    hide *;
    InitInv(cap, slots);
    InitTells(cap, slots);
    RunTells(Init(cap, slots), NOTHING, es, b);
    TellsAnswers(b, HistoryOf(NOTHING, Init(cap, slots), es));
    BufferTheorems.RunCap(Init(cap, slots), es, b);
    InitCap(cap, slots);
  }

  lemma InitCap(cap: nat, slots: seq<int>)
    ensures Init(cap, slots).cap == cap && Init(cap, slots).buf == slots
  {
  }

  // ----- on the kernel

  // What a move adds to the history.
  ghost function NotedMove(h: History, y: System, mv: Move): History {
    match mv
    case StartCall(k, v) => h.(begun := h.begun + [Enter(k, v)])
    case NextStep => Noted(h, Active(y), Doing(y))
    case Trap(_) => h
  }

  ghost function SystemHistory(h: History, y: System, mvs: seq<Move>): History
    decreases |mvs|
  {
    if mvs == [] || !MayMove(y, mvs[0]) then h
    else SystemHistory(NotedMove(h, y, mvs[0]), Next(y, mvs[0]), mvs[1..])
  }

  // A move is the event it projects to.
  lemma SameNote(y: System, place: KernelPlaces.Places, mv: Move, es: seq<Event>, h: History)
    requires Ok(y, place) && MayMove(y, mv)
    requires mv.Trap? ==> es == []
    requires mv.StartCall? ==> es == [Enter(mv.kind, mv.val)]
    requires mv.NextStep? ==> y.k.running in y.current && es == [Go(y.current[y.k.running])]
    ensures HistoryOf(h, View(y), es) == NotedMove(h, y, mv)
  {
    if mv.NextStep? {
      var i := ActiveCall(y, place);
      hide Ok, MayMove, Doing, ActionAt, View, CanStep, InSlots, ActionOf, BufferSpec.Step, Noted;
      assert es[1..] == [];
      assert i < |View(y).calls| by {
        CanStepThere(View(y), i);
      }
    } else if mv.StartCall? {
      hide Ok, MayMove, View;
      assert es[1..] == [];
    }
  }

  lemma CanStepThere(b: BState, i: nat)
    requires CanStep(b, i)
    ensures i < |b.calls|
  {
  }

  lemma {:induction false} SystemTells(y: System, place: KernelPlaces.Places, h: History, mvs: seq<Move>, y': System)
    returns (place': KernelPlaces.Places)
    requires Ok(y, place) && Tells(View(y), h) && SystemRun(y, mvs, y')
    ensures Ok(y', place') && Tells(View(y'), SystemHistory(h, y, mvs))
    decreases |mvs|
  {
    hide Ok, Tells, View, Next, MayMove, NotedMove;
    place' := place;
    if mvs != [] {
      var place1, es := MoveProjects(y, place, mvs[0]);
      InvHere(y, place);
      SameNote(y, place, mvs[0], es, h);
      RunTells(View(y), h, es, View(Next(y, mvs[0])));
      place' := SystemTells(Next(y, mvs[0]), place1, NotedMove(h, y, mvs[0]), mvs[1..], y');
    }
  }

  lemma InvHere(y: System, place: KernelPlaces.Places)
    requires Ok(y, place)
    ensures Inv(View(y))
  {
  }

  // A call as a value of the protocol, whether its thread is blocked in it or not.
  function CallsMade(y: System): (cs: seq<Call>)
    ensures |cs| == |y.tasks|
    ensures forall i: nat :: i < |cs| ==> var t := y.tasks[i]; cs[i] == Call(t.kind, t.pc, false, t.val)
  {
    seq(|y.tasks|, i requires 0 <= i < |y.tasks| => Call(y.tasks[i].kind, y.tasks[i].pc, false, y.tasks[i].val))
  }

  // Whoever is blocked has not touched the slots.
  lemma BlockedBefore(y: System, i: nat)
    requires QueuesOk(View(y)) && i < |y.tasks| == |View(y).calls| && View(y).calls[i] == CallOf(y, i)
    ensures var c, t := View(y).calls[i], y.tasks[i];
            c.kind == t.kind && c.val == t.val && (c.pc >= 3 <==> t.pc >= 3)
  {
    var c := View(y).calls[i];
    hide QueuesOk, View, Waits;
    if c.blocked {
      BlockedWaits(View(y), i);
      assert c.pc < 2;
    }
  }

  lemma SameAnswers(y: System, place: KernelPlaces.Places)
    requires Ok(y, place)
    ensures |View(y).calls| == |y.tasks|
    ensures forall i: nat :: i < |y.tasks| ==>
              var c, d := View(y).calls[i], CallsMade(y)[i];
              c.kind == d.kind && c.val == d.val && (c.pc >= 3 <==> d.pc >= 3)
  {
    hide *;
    ViewIs(y);
    OkParts(y, place);
    InvParts(View(y));
    forall i: nat | i < |y.tasks|
      ensures var c, d := View(y).calls[i], CallsMade(y)[i];
              c.kind == d.kind && c.val == d.val && (c.pc >= 3 <==> d.pc >= 3)
    {
      BlockedBefore(y, i);
    }
  }

  lemma AnswersToo(cs: seq<Call>, cs': seq<Call>, cap: nat, slots: nat, h: History)
    requires Answers(cs, cap, slots, h) && |cs'| == |cs|
    requires forall i: nat :: i < |cs| ==>
               cs'[i].kind == cs[i].kind && cs'[i].val == cs[i].val && (cs'[i].pc >= 3 <==> cs[i].pc >= 3)
    ensures Answers(cs', cap, slots, h)
  {
    hide Shown;
    forall p: nat | p < |h.readers|
      ensures GetsWhatWasPut(cs', h, p)
    {
      assert GetsWhatWasPut(cs, h, p);
    }
    forall p: nat | p < |h.counters|
      ensures CountsWhatIsStored(cs', h, slots, p)
    {
      assert CountsWhatIsStored(cs, h, slots, p);
    }
  }

  // On the kernel, from a sound state in which the buffer was just made: whatever threads run, call and are
  // interrupted, the gets return the arguments of the puts, in their order, and the getCnts what was stored.
  lemma ThreadsAnswered(k: KernelSpec.KState, place: KernelPlaces.Places, names: Names, cap: nat, slots: seq<int>,
                        mvs: seq<Move>, y: System)
    requires KernelSteps.Sound(k, place) && FreshSems(k, names, cap) && |slots| >= cap
    requires SystemRun(Fresh(k, names, cap, slots), mvs, y)
    ensures Answers(CallsMade(y), cap, |slots|, SystemHistory(NOTHING, Fresh(k, names, cap, slots), mvs))
  {
    hide *;
    var h := SystemHistory(NOTHING, Fresh(k, names, cap, slots), mvs);
    FreshOk(k, place, names, cap, slots);
    InitTells(cap, slots);
    var place' := SystemTells(Fresh(k, names, cap, slots), place, NOTHING, mvs, y);
    InvHere(y, place');
    TellsAnswers(View(y), h);
    SameAnswers(y, place');
    AnswersToo(View(y).calls, CallsMade(y), View(y).cap, |View(y).buf|, h);
    SameSize(Fresh(k, names, cap, slots), mvs, y);
    ViewIs(y);
    FreshSize(k, names, cap, slots);
  }

  lemma FreshSize(k: KernelSpec.KState, names: Names, cap: nat, slots: seq<int>)
    ensures Fresh(k, names, cap, slots).cap == cap && Fresh(k, names, cap, slots).buf == slots
  {
  }

  lemma {:induction false} SameSize(y: System, mvs: seq<Move>, y': System)
    requires SystemRun(y, mvs, y')
    ensures y'.cap == y.cap && |y'.buf| == |y.buf|
    decreases |mvs|
  {
    if mvs != [] {
      MoveSize(y, mvs[0]);
      hide Next, MayMove;
      SameSize(Next(y, mvs[0]), mvs[1..], y');
    }
  }

  lemma MoveSize(y: System, mv: Move)
    requires MayMove(y, mv)
    ensures Next(y, mv).cap == y.cap && |Next(y, mv).buf| == |y.buf|
  {
    hide KernelSpec.Step, KernelSpec.Allowed, ActionAt;
  }
}
