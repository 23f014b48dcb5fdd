// The bounded buffer on the thread kernel. Threads call put, get and getCnt; their waits and signals are
// system calls of the kernel, which blocks, readies and switches threads, and the timer may interrupt a
// call at any point. Every run of this system is a run of the buffer's protocol.
module BufferOnKernel {
  import opened Sequences
  import opened SemaphoreSpec
  import opened BufferSpec
  import opened BufferProtocol
  import BufferTheorems
  import KernelSpec
  import KernelPlaces
  import KernelSteps
  import KernelRuns

  // A call made by a thread. pc is the number of steps it has begun: a wait is counted when it is called.
  datatype Task = Task(thread: nat, kind: Kind, pc: nat, val: int)

  // The kernel's names of the buffer's semaphores.
  datatype Names = Names(item: nat, space: nat, mutexHead: nat, mutexTail: nat)

  function NameOf(n: Names, w: Which): nat {
    match w
    case Item => n.item
    case Space => n.space
    case Head => n.mutexHead
    case Tail => n.mutexTail
  }

  // current is the number of the last call each thread made.
  datatype System = System(k: KernelSpec.KState, names: Names, cap: nat, buf: seq<int>, head: nat, tail: nat,
                           tasks: seq<Task>, current: map<nat, nat>, written: seq<int>, read: seq<int>)

  // What a call does in step pc.
  function ActionAt(t: Task, pc: nat): Action {
    ActionOf(Call(t.kind, pc, false, t.val))
  }

  // ----- what the system does

  // The running thread begins a call, or does the next step of its call; or a trap that is none of these.
  datatype Move = StartCall(kind: Kind, val: int) | NextStep | Trap(op: KernelSpec.Trap)

  predicate Busy(y: System, t: nat) {
    t in y.current && y.current[t] < |y.tasks| && ActionAt(y.tasks[y.current[t]], y.tasks[y.current[t]].pc) != Finished
  }

  // The buffer's semaphores have different names and are open.
  predicate NamesOk(y: System) {
    && (forall v, w :: v != w ==> NameOf(y.names, v) != NameOf(y.names, w))
    && (forall w :: NameOf(y.names, w) in y.k.sems)
  }

  // The running thread is one that makes calls.
  predicate OnDuty(y: System) {
    y.k.running in y.k.threads && !y.k.threads[y.k.running].finished && y.k.running != y.k.idle
  }

  // A trap that is not an operation on a semaphore of the buffer.
  predicate Elsewhere(n: Names, op: KernelSpec.Trap) {
    forall w :: var s := NameOf(n, w);
      op != KernelSpec.WaitSem(s) && op != KernelSpec.SignalSem(s) && op != KernelSpec.CloseSem(s)
  }

  // A thread in a call makes no traps but those of the call; the timer comes at any time.
  predicate MayMove(y: System, mv: Move) {
    NamesOk(y) &&
    match mv
    case StartCall(_, _) => OnDuty(y) && !Busy(y, y.k.running)
    case NextStep => OnDuty(y) && Busy(y, y.k.running)
    case Trap(op) =>
      KernelSpec.Allowed(y.k, op) && Elsewhere(y.names, op) && (op == KernelSpec.Timer || !Busy(y, y.k.running))
  }

  // The next step of call i, which the running thread makes.
  function DoStep(y: System, i: nat): System
    requires i < |y.tasks| && NamesOk(y) && OnDuty(y)
  {
    var t := y.tasks[i];
    var y1 := y.(tasks := y.tasks[i := t.(pc := t.pc + 1)]);
    match ActionAt(t, t.pc)
    case Wait(w) => y1.(k := KernelSpec.Step(y.k, KernelSpec.WaitSem(NameOf(y.names, w))))
    case Signal(w) => y1.(k := KernelSpec.Step(y.k, KernelSpec.SignalSem(NameOf(y.names, w))))
    case Write => if y.tail < |y.buf| then y1.(buf := y.buf[y.tail := t.val], written := y.written + [t.val]) else y1
    case AdvanceTail => if |y.buf| > 0 then y1.(tail := (y.tail + 1) % |y.buf|) else y1
    case Read =>
      if y.head < |y.buf| then
        var v := y.buf[y.head];
        y1.(read := y.read + [v], tasks := y.tasks[i := t.(pc := t.pc + 1, val := v)])
      else y1
    case AdvanceHead => if |y.buf| > 0 then y1.(head := (y.head + 1) % |y.buf|) else y1
    case Compute => y1.(tasks := y.tasks[i := t.(pc := t.pc + 1, val := CountOf(|y.buf|, y.head, y.tail))])
    case Finished => y
  }

  function Next(y: System, mv: Move): System
    requires MayMove(y, mv)
  {
    match mv
    case StartCall(kind, v) =>
      y.(tasks := y.tasks + [Task(y.k.running, kind, 0, v)], current := y.current[y.k.running := |y.tasks|])
    case NextStep => DoStep(y, y.current[y.k.running])
    case Trap(op) => y.(k := KernelSpec.Step(y.k, op))
  }

  ghost predicate SystemRun(y: System, mvs: seq<Move>, y': System)
    decreases |mvs|
  {
    if mvs == [] then y == y'
    else MayMove(y, mvs[0]) && SystemRun(Next(y, mvs[0]), mvs[1..], y')
  }

  // ----- the protocol's view of the system

  predicate Queued(y: System, t: nat, w: Which) {
    NameOf(y.names, w) in y.k.sems && t in y.k.sems[NameOf(y.names, w)].queue
  }

  // Call i is the one its thread is blocked in.
  ghost predicate Waits(y: System, i: nat)
    requires i < |y.tasks|
  {
    var t := y.tasks[i].thread;
    t in y.current && y.current[t] == i && y.tasks[i].pc > 0 && exists w :: Queued(y, t, w)
  }

  // The protocol counts a wait when it is passed.
  ghost function CallOf(y: System, i: nat): Call
    requires i < |y.tasks|
  {
    var t := y.tasks[i];
    if Waits(y, i) then Call(t.kind, t.pc - 1, true, t.val) else Call(t.kind, t.pc, false, t.val)
  }

  // The calls the threads of q are in.
  function CallsOf(current: map<nat, nat>, q: seq<nat>): (r: seq<nat>)
    ensures |r| == |q|
    ensures forall j :: 0 <= j < |q| ==> r[j] == if q[j] in current then current[q[j]] else 0
  {
    seq(|q|, j requires 0 <= j < |q| => if q[j] in current then current[q[j]] else 0)
  }

  function SemView(y: System, w: Which): Sem {
    var s := NameOf(y.names, w);
    if s in y.k.sems then Sem(y.k.sems[s].val, CallsOf(y.current, y.k.sems[s].queue)) else Sem(0, [])
  }

  ghost function View(y: System): BState {
    BState(y.cap, y.buf, y.head, y.tail, SemView(y, Item), SemView(y, Space), SemView(y, Head), SemView(y, Tail),
           seq(|y.tasks|, i requires 0 <= i < |y.tasks| => CallOf(y, i)), y.written, y.read)
  }

  // ----- what the system keeps

  ghost predicate CurrentOk(y: System) {
    forall t: nat :: t in y.current ==> y.current[t] < |y.tasks| && y.tasks[y.current[t]].thread == t
  }

  // Who waits for a semaphore of the buffer has called its wait.
  ghost predicate WaitersOk(y: System) {
    forall w, t: nat :: Queued(y, t, w) ==>
      t in y.current && y.current[t] < |y.tasks| && y.tasks[y.current[t]].pc > 0
      && ActionAt(y.tasks[y.current[t]], y.tasks[y.current[t]].pc - 1) == Wait(w)
  }

  ghost predicate Ok(y: System, place: KernelPlaces.Places) {
    && KernelSteps.Sound(y.k, place) && NamesOk(y) && CurrentOk(y) && WaitersOk(y) && Inv(View(y))
  }

  lemma OkParts(y: System, place: KernelPlaces.Places)
    requires Ok(y, place)
    ensures KernelSteps.Sound(y.k, place) && NamesOk(y) && CurrentOk(y) && WaitersOk(y) && Inv(View(y))
  {
  }

  lemma MakeOk(y: System, place: KernelPlaces.Places)
    requires KernelSteps.Sound(y.k, place) && NamesOk(y) && CurrentOk(y) && WaitersOk(y) && Inv(View(y))
    ensures Ok(y, place)
  {
  }

  lemma ViewIs(y: System)
    ensures var b := View(y);
            && b.cap == y.cap && b.buf == y.buf && b.head == y.head && b.tail == y.tail
            && b.written == y.written && b.read == y.read && |b.calls| == |y.tasks|
            && (forall w :: SemOf(b, w) == SemView(y, w))
            && (forall i: nat :: i < |y.tasks| ==> b.calls[i] == CallOf(y, i))
  {
  }

  // Two states of the protocol with the same parts.
  lemma SameState(b: BState, b': BState)
    requires b.cap == b'.cap && b.buf == b'.buf && b.head == b'.head && b.tail == b'.tail
    requires b.written == b'.written && b.read == b'.read && |b.calls| == |b'.calls|
    requires forall w :: SemOf(b, w) == SemOf(b', w)
    requires forall i: nat :: i < |b.calls| ==> b.calls[i] == b'.calls[i]
    ensures b == b'
  {
    assert SemOf(b, Item) == SemOf(b', Item) && SemOf(b, Space) == SemOf(b', Space);
    assert SemOf(b, Head) == SemOf(b', Head) && SemOf(b, Tail) == SemOf(b', Tail);
    assert b.calls == b'.calls;
  }

  // A running thread waits for nothing.
  lemma RunningNotQueued(y: System, place: KernelPlaces.Places, w: Which)
    requires KernelSteps.Sound(y.k, place) && y.k.running != y.k.idle
    ensures !Queued(y, y.k.running, w)
  {
    var k, s := y.k, NameOf(y.names, w);
    assert KernelPlaces.In(place, k.running, KernelPlaces.Running) <==> k.running != k.idle;
    assert Queued(y, k.running, w) <==> s in k.sems && KernelPlaces.In(place, k.running, KernelPlaces.Waiting(s));
  }

  // A thread waits for one semaphore only, once.
  lemma QueuedOnce(y: System, place: KernelPlaces.Places, t: nat, v: Which, w: Which)
    requires KernelSteps.Sound(y.k, place) && NamesOk(y) && Queued(y, t, v) && Queued(y, t, w)
    ensures v == w && NoDup(y.k.sems[NameOf(y.names, w)].queue)
  {
    assert KernelPlaces.In(place, t, KernelPlaces.Waiting(NameOf(y.names, v)));
    assert KernelPlaces.In(place, t, KernelPlaces.Waiting(NameOf(y.names, w)));
  }

  // ----- the steps

  // The kernel moved, but not at the buffer's semaphores.
  lemma KeptView(y: System, y': System)
    requires NamesOk(y) && CurrentOk(y) && WaitersOk(y) && y' == y.(k := y'.k)
    requires forall w :: var s := NameOf(y.names, w); s in y'.k.sems && y'.k.sems[s] == y.k.sems[s]
    ensures NamesOk(y') && CurrentOk(y') && WaitersOk(y') && View(y') == View(y)
  {
    assert forall t: nat, w :: Queued(y', t, w) <==> Queued(y, t, w);
    assert forall w :: SemView(y', w) == SemView(y, w);
    assert forall i: nat :: i < |y.tasks| ==> CallOf(y', i) == CallOf(y, i);
    ViewIs(y);
    ViewIs(y');
    hide View, WaitersOk, CurrentOk;
    SameState(View(y'), View(y));
    SameWaiters(y, y');
  }

  lemma SameWaiters(y: System, y': System)
    requires CurrentOk(y) && WaitersOk(y) && y'.tasks == y.tasks && y'.current == y.current
    requires forall t: nat, w :: Queued(y', t, w) ==> Queued(y, t, w)
    ensures CurrentOk(y') && WaitersOk(y')
  {
  }

  // Traps that leave the buffer's semaphores alone do not show in the protocol.
  lemma TrapKeeps(y: System, place: KernelPlaces.Places, op: KernelSpec.Trap) returns (place': KernelPlaces.Places)
    requires Ok(y, place) && MayMove(y, Trap(op))
    ensures Ok(Next(y, Trap(op)), place') && View(Next(y, Trap(op))) == View(y)
  {
    TrapIs(y, op);
    hide *;
    OkParts(y, place);
    var y' := Next(y, Trap(op));
    place' := KernelRuns.StepSound(y.k, place, op);
    forall w
      ensures var s := NameOf(y.names, w); s in y'.k.sems && y'.k.sems[s] == y.k.sems[s]
    {
      KernelRuns.OtherSteps(y.k, op, NameOf(y.names, w));
    }
    KeptView(y, y');
    MakeOk(y', place');
  }

  lemma TrapIs(y: System, op: KernelSpec.Trap)
    requires MayMove(y, Trap(op))
    ensures KernelSpec.Allowed(y.k, op) && Next(y, Trap(op)) == y.(k := KernelSpec.Step(y.k, op))
    ensures forall w :: var s := NameOf(y.names, w);
              && op != KernelSpec.WaitSem(s) && op != KernelSpec.SignalSem(s) && op != KernelSpec.CloseSem(s)
              && s in y.k.sems
  {
    hide KernelSpec.Step, KernelSpec.Allowed, Busy;
  }

  // Thread t, which waits for nothing, began call number |y.tasks|.
  ghost predicate Started(y: System, y': System, t: nat, c: Task) {
    && c.thread == t && c.pc == 0
    && y' == y.(tasks := y.tasks + [c], current := y.current[t := |y.tasks|])
    && forall w :: !Queued(y, t, w)
  }

  lemma StartedQueues(y: System, y': System, t: nat, c: Task)
    requires Started(y, y', t, c) && NamesOk(y)
    ensures forall x: nat, w :: Queued(y', x, w) <==> Queued(y, x, w)
    ensures forall w :: SemView(y', w) == SemView(y, w)
    ensures NamesOk(y')
  {
    forall w
      ensures SemView(y', w) == SemView(y, w)
    {
      var q := y.k.sems[NameOf(y.names, w)].queue;
      assert !Queued(y, t, w);
      assert CallsOf(y'.current, q) == CallsOf(y.current, q);
    }
  }

  lemma StartedCalls(y: System, y': System, t: nat, c: Task)
    requires Started(y, y', t, c) && forall x: nat, w :: Queued(y', x, w) <==> Queued(y, x, w)
    ensures |y'.tasks| == |y.tasks| + 1 && CallOf(y', |y.tasks|) == Call(c.kind, 0, false, c.val)
    ensures forall i: nat :: i < |y.tasks| ==> CallOf(y', i) == CallOf(y, i)
  {
    hide Queued;
    forall i: nat | i < |y.tasks|
      ensures CallOf(y', i) == CallOf(y, i)
    {
      assert y'.tasks[i] == y.tasks[i];
      if y.tasks[i].thread == t {
        assert !Waits(y, i) && !Waits(y', i);
      }
    }
    assert !Waits(y', |y.tasks|);
  }

  lemma StartedKeeps(y: System, y': System, t: nat, c: Task)
    requires Started(y, y', t, c) && CurrentOk(y) && WaitersOk(y)
    requires forall x: nat, w :: Queued(y', x, w) <==> Queued(y, x, w)
    ensures CurrentOk(y') && WaitersOk(y')
  {
    hide Queued;
    forall x: nat, w | Queued(y', x, w)
      ensures x in y'.current && y'.current[x] < |y'.tasks| && y'.tasks[y'.current[x]].pc > 0
      ensures ActionAt(y'.tasks[y'.current[x]], y'.tasks[y'.current[x]].pc - 1) == Wait(w)
    {
      assert Queued(y, x, w) && x != t;
      assert y'.tasks[y.current[x]] == y.tasks[y.current[x]];
    }
  }

  lemma StartIs(y: System, kind: Kind, v: int)
    requires MayMove(y, StartCall(kind, v))
    ensures var t := y.k.running;
            && t != y.k.idle
            && Next(y, StartCall(kind, v)) ==
               y.(tasks := y.tasks + [Task(t, kind, 0, v)], current := y.current[t := |y.tasks|])
  {
    hide Busy;
  }

  lemma MakeStarted(y: System, y': System, t: nat, c: Task)
    requires c.thread == t && c.pc == 0 && forall w :: !Queued(y, t, w)
    requires y' == y.(tasks := y.tasks + [c], current := y.current[t := |y.tasks|])
    ensures Started(y, y', t, c)
  {
  }

  lemma BeginIs(b: BState, kind: Kind, v: int)
    ensures var b' := Begin(b, kind, v);
            && b'.cap == b.cap && b'.buf == b.buf && b'.head == b.head && b'.tail == b.tail
            && b'.written == b.written && b'.read == b.read && |b'.calls| == |b.calls| + 1
            && (forall w :: SemOf(b', w) == SemOf(b, w)) && b'.calls[|b.calls|] == Call(kind, 0, false, v)
            && (forall i: nat :: i < |b.calls| ==> b'.calls[i] == b.calls[i])
  {
  }

  lemma StartProjects(y: System, place: KernelPlaces.Places, kind: Kind, v: int)
    requires Ok(y, place) && MayMove(y, StartCall(kind, v))
    ensures Ok(Next(y, StartCall(kind, v)), place) && View(Next(y, StartCall(kind, v))) == Begin(View(y), kind, v)
  {
    hide *;
    OkParts(y, place);
    StartIs(y, kind, v);
    var y', t, c := Next(y, StartCall(kind, v)), y.k.running, Task(y.k.running, kind, 0, v);
    forall w
      ensures !Queued(y, t, w)
    {
      RunningNotQueued(y, place, w);
    }
    MakeStarted(y, y', t, c);
    StartedQueues(y, y', t, c);
    StartedCalls(y, y', t, c);
    StartedKeeps(y, y', t, c);
    ViewIs(y);
    ViewIs(y');
    BeginIs(View(y), kind, v);
    BeginKeeps(View(y), kind, v);
    SameState(View(y'), Begin(View(y), kind, v));
    MakeOk(y', place);
  }

  // The call the running thread is in, and what it is about to do.
  function Active(y: System): nat {
    if y.k.running in y.current then y.current[y.k.running] else 0
  }

  function Doing(y: System): Action {
    var i := Active(y);
    if i < |y.tasks| then ActionAt(y.tasks[i], y.tasks[i].pc) else Finished
  }

  // The protocol takes its step of call i from what it sees of y to what it sees of y'.
  ghost predicate StepsTo(y: System, y': System, i: nat) {
    CanStep(View(y), i) && InSlots(View(y), i) && View(y') == BufferSpec.Step(View(y), i)
  }

  lemma MakeStepsTo(y: System, y': System, i: nat)
    requires CanStep(View(y), i) && InSlots(View(y), i) && View(y') == BufferSpec.Step(View(y), i)
    ensures StepsTo(y, y', i)
  {
  }

  // The call the running thread is in, as the protocol sees it.
  lemma ActiveCall(y: System, place: KernelPlaces.Places) returns (i: nat)
    requires Ok(y, place) && MayMove(y, NextStep)
    ensures y.k.running in y.current && i == y.current[y.k.running] == Active(y) && i < |y.tasks|
    ensures y.tasks[i].thread == y.k.running && Doing(y) == ActionAt(y.tasks[i], y.tasks[i].pc)
    ensures !Waits(y, i) && CanStep(View(y), i) && InSlots(View(y), i)
    ensures ActionOf(View(y).calls[i]) == ActionAt(y.tasks[i], y.tasks[i].pc) != Finished
    ensures forall w :: !Queued(y, y.k.running, w)
  {
    OkParts(y, place);
    hide KernelSteps.Sound, Inv;
    i := y.current[y.k.running];
    forall w
      ensures !Queued(y, y.k.running, w)
    {
      RunningNotQueued(y, place, w);
    }
    ViewIs(y);
    PositionsInside(View(y), i);
  }

  // Call j did not move, and its thread was neither blocked nor released in it.
  lemma CallKept(y: System, y': System, j: nat)
    requires j < |y.tasks| == |y'.tasks| && y'.tasks[j] == y.tasks[j] && y'.current == y.current
    requires var t := y.tasks[j].thread;
             t in y.current && y.current[t] == j ==> forall w :: Queued(y', t, w) <==> Queued(y, t, w)
    ensures CallOf(y', j) == CallOf(y, j)
  {
    hide Queued;
  }

  // Call i has begun its next step.
  ghost predicate Began(y: System, y': System, i: nat) {
    && i < |y.tasks| == |y'.tasks| && y'.names == y.names && y'.current == y.current
    && y'.tasks[i].thread == y.tasks[i].thread && y'.tasks[i].pc == y.tasks[i].pc + 1
    && (forall j: nat :: j < |y.tasks| && j != i ==> y'.tasks[j] == y.tasks[j])
    && (forall w :: !Queued(y, y.tasks[i].thread, w)) && y.tasks[i].thread in y.current &&
       y.current[y.tasks[i].thread] == i
  }

  lemma BeganKeeps(y: System, y': System, i: nat)
    requires CurrentOk(y) && WaitersOk(y) && Began(y, y', i)
    requires forall t: nat, w :: Queued(y', t, w) ==>
               Queued(y, t, w) || (t == y.tasks[i].thread && y'.tasks[i].kind == y.tasks[i].kind
                                   && ActionAt(y.tasks[i], y.tasks[i].pc) == Wait(w))
    ensures CurrentOk(y') && WaitersOk(y')
  {
    hide Queued;
    forall t: nat, w | Queued(y', t, w)
      ensures t in y'.current && y'.current[t] < |y'.tasks| && y'.tasks[y'.current[t]].pc > 0
      ensures ActionAt(y'.tasks[y'.current[t]], y'.tasks[y'.current[t]].pc - 1) == Wait(w)
    {
      if t != y.tasks[i].thread {
        assert Queued(y, t, w);
        assert y.current[t] != i;
      }
    }
  }

  // What the protocol sees of a statement between waits and signals.
  lemma BodyView(y: System, i: nat)
    requires NamesOk(y) && OnDuty(y) && i < |y.tasks| && CanStep(View(y), i) && InSlots(View(y), i) && !Waits(y, i)
    requires y.tasks[i].thread in y.current && y.current[y.tasks[i].thread] == i &&
             forall w :: !Queued(y, y.tasks[i].thread, w)
    requires var a := ActionAt(y.tasks[i], y.tasks[i].pc); !a.Wait? && !a.Signal? && a != Finished
    ensures View(DoStep(y, i)) == BufferSpec.Step(View(y), i) && Began(y, DoStep(y, i), i)
    ensures DoStep(y, i).k == y.k && DoStep(y, i).names == y.names && DoStep(y, i).current == y.current
  {
    hide *;
    BodyParts(y, i);
    var y', b' := DoStep(y, i), BufferSpec.Step(View(y), i);
    SameQueues(y, y');
    ViewIs(y);
    ViewIs(y');
    CallAt(y', i);
    forall j: nat | j < |y.tasks| && j != i
      ensures CallOf(y', j) == b'.calls[j]
    {
      CallKept(y, y', j);
    }
    SameState(View(y'), b');
    MakeBegan(y, y', i);
  }

  lemma BodyProjects(y: System, place: KernelPlaces.Places)
    requires Ok(y, place) && MayMove(y, NextStep)
    requires !Doing(y).Wait? && !Doing(y).Signal?
    ensures Ok(Next(y, NextStep), place) && StepsTo(y, Next(y, NextStep), Active(y))
  {
    hide *;
    NextIs(y);
    var i := ActiveCall(y, place);
    OkParts(y, place);
    var y' := Next(y, NextStep);
    BodyView(y, i);
    StepKeepsAll(View(y), i);
    MakeStepsTo(y, y', i);
    SameQueues(y, y');
    BeganKeeps(y, y', i);
    NamesKept(y, y');
    MakeOk(y', place);
  }

  lemma NextIs(y: System)
    requires MayMove(y, NextStep)
    ensures NamesOk(y) && OnDuty(y) && y.k.running in y.current && y.current[y.k.running] < |y.tasks|
    ensures Next(y, NextStep) == DoStep(y, y.current[y.k.running])
  {
    hide DoStep;
  }

  lemma SameQueues(y: System, y': System)
    requires y'.k == y.k && y'.names == y.names && y'.current == y.current
    ensures forall t: nat, w :: Queued(y', t, w) <==> Queued(y, t, w)
    ensures forall w :: SemView(y', w) == SemView(y, w)
  {
  }

  lemma NamesKept(y: System, y': System)
    requires NamesOk(y) && y'.names == y.names && y.k.sems.Keys <= y'.k.sems.Keys
    ensures NamesOk(y')
  {
    forall w
      ensures NameOf(y'.names, w) in y'.k.sems
    {
      assert NameOf(y.names, w) in y.k.sems.Keys;
    }
  }

  lemma MakeBegan(y: System, y': System, i: nat)
    requires i < |y.tasks| == |y'.tasks| && y'.names == y.names && y'.current == y.current
    requires y'.tasks[i].thread == y.tasks[i].thread && y'.tasks[i].pc == y.tasks[i].pc + 1
    requires forall j: nat :: j < |y.tasks| && j != i ==> y'.tasks[j] == y.tasks[j]
    requires forall w :: !Queued(y, y.tasks[i].thread, w)
    requires y.tasks[i].thread in y.current && y.current[y.tasks[i].thread] == i
    ensures Began(y, y', i)
  {
  }

  // A call whose thread is on no queue.
  lemma CallAt(y: System, i: nat)
    requires i < |y.tasks| && forall w :: !Queued(y, y.tasks[i].thread, w)
    ensures CallOf(y, i) == Call(y.tasks[i].kind, y.tasks[i].pc, false, y.tasks[i].val)
  {
    hide Queued;
  }

  lemma BodyParts(y: System, i: nat)
    requires NamesOk(y) && OnDuty(y) && i < |y.tasks| && CanStep(View(y), i) && InSlots(View(y), i) && !Waits(y, i)
    requires var a := ActionAt(y.tasks[i], y.tasks[i].pc); !a.Wait? && !a.Signal? && a != Finished
    ensures var y', b, b' := DoStep(y, i), View(y), BufferSpec.Step(View(y), i);
            && y'.k == y.k && y'.names == y.names && y'.current == y.current && |y'.tasks| == |y.tasks| == |b'.calls|
            && y'.cap == b'.cap && y'.buf == b'.buf && y'.head == b'.head && y'.tail == b'.tail
            && y'.written == b'.written && y'.read == b'.read
            && (forall w :: SemOf(b', w) == SemOf(b, w))
            && y'.tasks[i].thread == y.tasks[i].thread && y'.tasks[i].pc == y.tasks[i].pc + 1
            && b'.calls[i] == Call(y'.tasks[i].kind, y'.tasks[i].pc, false, y'.tasks[i].val)
            && (forall j: nat :: j < |y.tasks| && j != i ==> y'.tasks[j] == y.tasks[j] && b'.calls[j] == b.calls[j])
  {
    ViewIs(y);
    hide View, SemView;
  }

  // What the kernel does to the four semaphores when w is waited for or signalled.
  lemma KernelMoves(y: System, place: KernelPlaces.Places, w: Which, op: KernelSpec.Trap)
    returns (place': KernelPlaces.Places)
    requires Ok(y, place) && MayMove(y, NextStep)
    requires op == KernelSpec.WaitSem(NameOf(y.names, w)) || op == KernelSpec.SignalSem(NameOf(y.names, w))
    ensures KernelSpec.Allowed(y.k, op)
    ensures var s, k' := NameOf(y.names, w), KernelSpec.Step(y.k, op);
            && KernelSteps.Sound(k', place')
            && s in k'.sems
            && k'.sems[s].val == y.k.sems[s].val + (if op.SignalSem? then 1 else -1)
            && (op.SignalSem? ==> KernelRuns.Leaving(y.k, op, s) <= |y.k.sems[s].queue|)
            && k'.sems[s].queue == (if op.SignalSem? then y.k.sems[s].queue[KernelRuns.Leaving(y.k, op, s)..]
                                    else y.k.sems[s].queue + KernelRuns.Joining(y.k, op, s))
            && forall v :: v != w ==>
               NameOf(y.names, v) in k'.sems && k'.sems[NameOf(y.names, v)] == y.k.sems[NameOf(y.names, v)]
  {
    OkParts(y, place);
    hide KernelSteps.Sound, KernelSpec.Step, Inv, Busy;
    KernelRuns.SemStep(y.k, place, op, NameOf(y.names, w));
    place' := KernelRuns.StepSound(y.k, place, op);
    forall v | v != w
      ensures NameOf(y.names, v) in KernelSpec.Step(y.k, op).sems
      ensures KernelSpec.Step(y.k, op).sems[NameOf(y.names, v)] == y.k.sems[NameOf(y.names, v)]
    {
      KernelRuns.OtherSteps(y.k, op, NameOf(y.names, v));
    }
  }

  // ----- waits

  lemma WaitShape(b: BState, i: nat, w: Which)
    requires CanStep(b, i) && InSlots(b, i) && ActionOf(b.calls[i]) == Wait(w)
    ensures var b', m := BufferSpec.Step(b, i), SemOf(b, w);
            && SameSlots(b, b')
            && (forall v :: v != w ==> SemOf(b', v) == SemOf(b, v))
            && SemOf(b', w) == Sem(m.val - 1, if m.val <= 0 then m.queue + [i] else m.queue)
            && b'.calls == b.calls[i := if m.val <= 0 then b.calls[i].(blocked := true)
                                        else b.calls[i].(pc := b.calls[i].pc + 1, blocked := false)]
  {
  }

  // Call i did a wait or a signal; semaphore w, which had a queue q, now has the queue q'.
  ghost predicate SemStep(y: System, y': System, i: nat, w: Which, q: seq<nat>, q': seq<nat>) {
    && i < |y.tasks| && NamesOk(y) && y' == y.(k := y'.k, tasks := y.tasks[i := y.tasks[i].(pc := y.tasks[i].pc + 1)])
    && y.k.sems[NameOf(y.names, w)].queue == q
    && NameOf(y.names, w) in y'.k.sems && y'.k.sems[NameOf(y.names, w)].queue == q'
    && forall v :: v != w ==> var s := NameOf(y.names, v); s in y'.k.sems && y'.k.sems[s] == y.k.sems[s]
  }

  lemma SemStepParts(y: System, y': System, i: nat, w: Which, q: seq<nat>, q': seq<nat>)
    requires SemStep(y, y', i, w, q, q')
    ensures i < |y.tasks| == |y'.tasks| && NamesOk(y') && y'.names == y.names && y'.current == y.current
    ensures y'.tasks[i] == y.tasks[i].(pc := y.tasks[i].pc + 1)
    ensures forall j: nat :: j < |y.tasks| && j != i ==> y'.tasks[j] == y.tasks[j]
    ensures y'.cap == y.cap && y'.buf == y.buf && y'.head == y.head && y'.tail == y.tail
    ensures y'.written == y.written && y'.read == y.read
    ensures forall v, t: nat :: v != w ==> (Queued(y', t, v) <==> Queued(y, t, v))
    ensures forall t: nat :: (Queued(y', t, w) <==> t in q') && (Queued(y, t, w) <==> t in q)
    ensures forall v :: v != w ==> SemView(y', v) == SemView(y, v)
    ensures SemView(y, w).queue == CallsOf(y.current, q) && SemView(y', w).queue == CallsOf(y.current, q')
  {
    NamesHere(y, y', w);
  }

  lemma NamesHere(y: System, y': System, w: Which)
    requires NamesOk(y) && y'.names == y.names && NameOf(y.names, w) in y'.k.sems
    requires forall v :: v != w ==> NameOf(y.names, v) in y'.k.sems
    ensures NamesOk(y')
  {
  }

  // What the protocol sees of a wait by the thread of call i.
  lemma WaitView(y: System, y': System, i: nat, w: Which, q: seq<nat>, q': seq<nat>)
    requires SemStep(y, y', i, w, q, q') && SemView(y', w).val == SemView(y, w).val - 1
    requires q' == if SemView(y, w).val <= 0 then q + [y.tasks[i].thread] else q
    requires y.tasks[i].thread in y.current && y.current[y.tasks[i].thread] == i &&
             forall v :: !Queued(y, y.tasks[i].thread, v)
    requires CanStep(View(y), i) && InSlots(View(y), i) && ActionOf(View(y).calls[i]) == Wait(w)
    ensures View(y') == BufferSpec.Step(View(y), i)
  {
    hide *;
    SemStepParts(y, y', i, w, q, q');
    var b, b', t := View(y), BufferSpec.Step(View(y), i), y.tasks[i].thread;
    WaitShape(b, i, w);
    ViewIs(y);
    ViewIs(y');
    CallsOfJoined(y, q, t, i);
    SemEqual(SemOf(View(y'), w), SemOf(b', w));
    CallAt(y, i);
    if SemView(y, w).val <= 0 {
      assert t in q';
      CallBlocked(y', i, w);
    } else {
      CallAt(y', i);
    }
    forall j: nat | j < |y.tasks| && j != i
      ensures CallOf(y', j) == b'.calls[j]
    {
      CallKept(y, y', j);
    }
    SlotsSame(b, b');
    SameState(View(y'), b');
  }

  lemma WaitProjects(y: System, place: KernelPlaces.Places, w: Which) returns (place': KernelPlaces.Places)
    requires Ok(y, place) && MayMove(y, NextStep)
    requires Doing(y) == Wait(w)
    ensures Ok(Next(y, NextStep), place') && StepsTo(y, Next(y, NextStep), Active(y))
  {
    hide *;
    NextIs(y);
    var i := ActiveCall(y, place);
    OkParts(y, place);
    var y', s := Next(y, NextStep), NameOf(y.names, w);
    NamesThere(y, w);
    place' := KernelMoves(y, place, w, KernelSpec.WaitSem(s));
    WaitIs(y, i, w);
    JoiningIs(y.k, s);
    var q, q' := y.k.sems[s].queue, y'.k.sems[s].queue;
    assert q + [] == q;
    MakeSemStep(y, y', i, w, q, q');
    SemViewVal(y, w);
    SemViewVal(y', w);
    WaitView(y, y', i, w, q, q');
    MakeStepsTo(y, y', i);
    StepKeepsAll(View(y), i);
    SemStepKeeps(y, y', i, w, q, q');
    MakeOk(y', place');
  }

  // Nobody but the thread of call i joined a queue, and it the one it waits for.
  lemma SemStepKeeps(y: System, y': System, i: nat, w: Which, q: seq<nat>, q': seq<nat>)
    requires SemStep(y, y', i, w, q, q') && CurrentOk(y) && WaitersOk(y)
    requires y.tasks[i].thread in y.current && y.current[y.tasks[i].thread] == i &&
             forall v :: !Queued(y, y.tasks[i].thread, v)
    requires forall t: nat :: t in q' ==>
             t in q || (t == y.tasks[i].thread && ActionAt(y.tasks[i], y.tasks[i].pc) == Wait(w))
    ensures NamesOk(y') && CurrentOk(y') && WaitersOk(y')
  {
    hide *;
    SemStepParts(y, y', i, w, q, q');
    MakeBegan(y, y', i);
    BeganKeeps(y, y', i);
  }

  lemma NamesThere(y: System, w: Which)
    requires NamesOk(y)
    ensures NameOf(y.names, w) in y.k.sems
  {
  }

  lemma WaitIs(y: System, i: nat, w: Which)
    requires i < |y.tasks| && NamesOk(y) && OnDuty(y) && ActionAt(y.tasks[i], y.tasks[i].pc) == Wait(w)
    ensures var s := NameOf(y.names, w);
            && KernelSpec.Allowed(y.k, KernelSpec.WaitSem(s))
            && DoStep(y, i) == y.(k := KernelSpec.Step(y.k, KernelSpec.WaitSem(s)),
                                  tasks := y.tasks[i := y.tasks[i].(pc := y.tasks[i].pc + 1)])
  {
    hide KernelSpec.Step;
  }

  lemma MakeSemStep(y: System, y': System, i: nat, w: Which, q: seq<nat>, q': seq<nat>)
    requires i < |y.tasks| && NamesOk(y) &&
             y' == y.(k := y'.k, tasks := y.tasks[i := y.tasks[i].(pc := y.tasks[i].pc + 1)])
    requires NameOf(y.names, w) in y.k.sems && y.k.sems[NameOf(y.names, w)].queue == q
    requires NameOf(y.names, w) in y'.k.sems && y'.k.sems[NameOf(y.names, w)].queue == q'
    requires forall v :: v != w ==> NameOf(y.names, v) in y.k.sems
    requires forall v :: v != w ==> var s := NameOf(y.names, v); s in y'.k.sems && y'.k.sems[s] == y.k.sems[s]
    ensures SemStep(y, y', i, w, q, q')
  {
  }

  lemma SemViewVal(y: System, w: Which)
    requires NameOf(y.names, w) in y.k.sems
    ensures SemView(y, w).val == y.k.sems[NameOf(y.names, w)].val
  {
  }

  lemma JoiningIs(k: KernelSpec.KState, s: nat)
    requires s in k.sems
    ensures KernelRuns.Joining(k, KernelSpec.WaitSem(s), s) == if k.sems[s].val <= 0 then [k.running] else []
    ensures KernelRuns.Leaving(k, KernelSpec.SignalSem(s), s) == if k.sems[s].val < 0 then 1 else 0
  {
  }

  lemma CallsOfJoined(y: System, q: seq<nat>, t: nat, i: nat)
    requires t in y.current && y.current[t] == i
    ensures CallsOf(y.current, q + [t]) == CallsOf(y.current, q) + [i] &&
            CallsOf(y.current, q + []) == CallsOf(y.current, q)
  {
    assert q + [] == q;
  }

  lemma SemEqual(m: Sem, m': Sem)
    requires m.val == m'.val && m.queue == m'.queue
    ensures m == m'
  {
  }

  // A call whose thread is on the queue of w.
  lemma CallBlocked(y: System, i: nat, w: Which)
    requires i < |y.tasks| && Queued(y, y.tasks[i].thread, w) && y.tasks[i].pc > 0
    requires y.tasks[i].thread in y.current && y.current[y.tasks[i].thread] == i
    ensures CallOf(y, i) == Call(y.tasks[i].kind, y.tasks[i].pc - 1, true, y.tasks[i].val)
  {
    hide Queued;
  }

  // ----- signals

  lemma SignalShape(b: BState, i: nat, w: Which)
    requires CanStep(b, i) && InSlots(b, i) && ActionOf(b.calls[i]) == Signal(w)
    requires var m := SemOf(b, w); m.val < 0 ==> m.queue != [] && m.queue[0] < |b.calls| && m.queue[0] != i
    ensures var b', m := BufferSpec.Step(b, i), SemOf(b, w);
            && SameSlots(b, b') && |b'.calls| == |b.calls|
            && (forall v :: v != w ==> SemOf(b', v) == SemOf(b, v))
            && SemOf(b', w) == Sem(m.val + 1, if m.val < 0 then m.queue[1..] else m.queue)
            && (forall j: nat :: j < |b.calls| ==>
                  b'.calls[j] == if j == i || (m.val < 0 && j == m.queue[0])
                                 then b.calls[j].(pc := b.calls[j].pc + 1, blocked := false) else b.calls[j])
  {
  }

  // The thread of call i signalled w; the first thread of w's queue, if it had one, is off it now.
  ghost predicate Signalled(y: System, y': System, i: nat, w: Which, q: seq<nat>, q': seq<nat>) {
    && SemStep(y, y', i, w, q, q') && SemView(y', w).val == SemView(y, w).val + 1
    && (SemView(y, w).val < 0 ==> q != []) && q' == (if SemView(y, w).val < 0 then q[1..] else q)
    && y.tasks[i].thread in y.current && y.current[y.tasks[i].thread] == i &&
       (forall v :: !Queued(y, y.tasks[i].thread, v))
    && NoDup(q) && (forall t: nat, v :: t in q && v != w ==> !Queued(y, t, v))
  }

  // The thread that is let past its wait.
  lemma Released(y: System, y': System, i: nat, w: Which, q: seq<nat>, q': seq<nat>) returns (j: nat)
    requires Signalled(y, y', i, w, q, q') && CurrentOk(y) && WaitersOk(y) && SemView(y, w).val < 0
    ensures q != [] && q' == q[1..] && q[0] in y.current && j == y.current[q[0]] && j < |y.tasks| && j != i
    ensures y.tasks[j].thread == q[0] && y.tasks[j].pc > 0
    ensures CallOf(y, j) == Call(y.tasks[j].kind, y.tasks[j].pc - 1, true, y.tasks[j].val)
    ensures CallOf(y', j) == Call(y.tasks[j].kind, y.tasks[j].pc, false, y.tasks[j].val)
    ensures forall t: nat, v :: t != q[0] ==> (Queued(y', t, v) <==> Queued(y, t, v))
  {
    SignalledParts(y, y', i, w, q, q');
    hide *;
    SemStepParts(y, y', i, w, q, q');
    TailMember(q);
    assert q[0] in q;
    WaiterAt(y, q[0], w);
    j := y.current[q[0]];
    CallBlocked(y, j, w);
    forall v
      ensures !Queued(y', q[0], v)
    {
    }
    CallAt(y', j);
  }

  lemma SignalledParts(y: System, y': System, i: nat, w: Which, q: seq<nat>, q': seq<nat>)
    requires Signalled(y, y', i, w, q, q')
    ensures SemStep(y, y', i, w, q, q') && i < |y.tasks| && SemView(y', w).val == SemView(y, w).val + 1
    ensures SemView(y, w).val < 0 ==> q != []
    ensures q' == if SemView(y, w).val < 0 then q[1..] else q
    ensures y.tasks[i].thread in y.current && y.current[y.tasks[i].thread] == i &&
            forall v :: !Queued(y, y.tasks[i].thread, v)
    ensures NoDup(q) && forall t: nat, v :: t in q && v != w ==> !Queued(y, t, v)
  {
    hide NoDup, Queued, SemView;
  }

  lemma WaiterAt(y: System, t: nat, w: Which)
    requires CurrentOk(y) && WaitersOk(y) && Queued(y, t, w)
    ensures t in y.current && y.current[t] < |y.tasks| && y.tasks[y.current[t]].thread == t &&
            y.tasks[y.current[t]].pc > 0
  {
    hide Queued;
  }

  // What the protocol sees of a signal by the thread of call i.
  lemma SignalView(y: System, y': System, i: nat, w: Which, q: seq<nat>, q': seq<nat>)
    requires Signalled(y, y', i, w, q, q') && CurrentOk(y) && WaitersOk(y) && i < |y.tasks|
    requires CanStep(View(y), i) && InSlots(View(y), i) && ActionOf(View(y).calls[i]) == Signal(w)
    ensures View(y') == BufferSpec.Step(View(y), i)
  {
    hide *;
    var b, b', low := View(y), BufferSpec.Step(View(y), i), SemView(y, w).val < 0;
    SignalledParts(y, y', i, w, q, q');
    SemStepParts(y, y', i, w, q, q');
    ViewIs(y);
    ViewIs(y');
    var r := i;
    if low {
      r := Released(y, y', i, w, q, q');
      CallsOfTail(y, q);
    }
    SignalShape(b, i, w);
    SemEqual(SemOf(View(y'), w), SemOf(b', w));
    CallAt(y, i);
    StillOff(y, y', i, w, q, q');
    CallAt(y', i);
    forall j: nat | j < |y.tasks|
      ensures CallOf(y', j) == b'.calls[j]
    {
      if j != i && (!low || j != r) {
        if low && y.tasks[j].thread == q[0] {
          assert y.current[q[0]] == r;
        }
        CallKept(y, y', j);
      }
    }
    SlotsSame(b, b');
    SameState(View(y'), b');
  }

  lemma CallsOfTail(y: System, q: seq<nat>)
    requires q != [] && q[0] in y.current
    ensures CallsOf(y.current, q)[1..] == CallsOf(y.current, q[1..]) && CallsOf(y.current, q) != []
    ensures CallsOf(y.current, q)[0] == y.current[q[0]]
  {
  }

  // The signalling thread is on no queue afterwards either.
  lemma StillOff(y: System, y': System, i: nat, w: Which, q: seq<nat>, q': seq<nat>)
    requires Signalled(y, y', i, w, q, q')
    ensures i < |y.tasks| == |y'.tasks| && forall v :: !Queued(y', y'.tasks[i].thread, v)
    ensures forall t: nat :: t in q' ==> t in q
  {
    SignalledParts(y, y', i, w, q, q');
    hide *;
    SemStepParts(y, y', i, w, q, q');
    assert forall t: nat :: t in q' ==> t in q;
    assert !Queued(y, y.tasks[i].thread, w);
  }

  lemma SignalProjects(y: System, place: KernelPlaces.Places, w: Which) returns (place': KernelPlaces.Places)
    requires Ok(y, place) && MayMove(y, NextStep)
    requires Doing(y) == Signal(w)
    ensures Ok(Next(y, NextStep), place') && StepsTo(y, Next(y, NextStep), Active(y))
  {
    hide *;
    NextIs(y);
    var i := ActiveCall(y, place);
    OkParts(y, place);
    var y', s := Next(y, NextStep), NameOf(y.names, w);
    NamesThere(y, w);
    place' := KernelMoves(y, place, w, KernelSpec.SignalSem(s));
    SignalIs(y, i, w);
    JoiningIs(y.k, s);
    var q, q' := y.k.sems[s].queue, y'.k.sems[s].queue;
    MakeSemStep(y, y', i, w, q, q');
    SemViewVal(y, w);
    SemViewVal(y', w);
    OneQueue(y, place, w);
    assert q[0..] == q;
    MakeSignalled(y, y', i, w, q, q');
    SignalView(y, y', i, w, q, q');
    MakeStepsTo(y, y', i);
    StepKeepsAll(View(y), i);
    StillOff(y, y', i, w, q, q');
    SemStepKeeps(y, y', i, w, q, q');
    MakeOk(y', place');
  }

  lemma SignalIs(y: System, i: nat, w: Which)
    requires i < |y.tasks| && NamesOk(y) && OnDuty(y) && ActionAt(y.tasks[i], y.tasks[i].pc) == Signal(w)
    ensures var s := NameOf(y.names, w);
            && KernelSpec.Allowed(y.k, KernelSpec.SignalSem(s))
            && DoStep(y, i) == y.(k := KernelSpec.Step(y.k, KernelSpec.SignalSem(s)),
                                  tasks := y.tasks[i := y.tasks[i].(pc := y.tasks[i].pc + 1)])
  {
    hide KernelSpec.Step;
  }

  lemma OneQueue(y: System, place: KernelPlaces.Places, w: Which)
    requires KernelSteps.Sound(y.k, place) && NamesOk(y) && NameOf(y.names, w) in y.k.sems
    ensures NoDup(y.k.sems[NameOf(y.names, w)].queue)
    ensures forall t: nat, v :: t in y.k.sems[NameOf(y.names, w)].queue && v != w ==> !Queued(y, t, v)
  {
    var q := y.k.sems[NameOf(y.names, w)].queue;
    forall t: nat, v | t in q && Queued(y, t, v)
      ensures v == w
    {
      assert Queued(y, t, w);
      QueuedOnce(y, place, t, v, w);
    }
  }

  lemma MakeSignalled(y: System, y': System, i: nat, w: Which, q: seq<nat>, q': seq<nat>)
    requires SemStep(y, y', i, w, q, q') && i < |y.tasks| && SemView(y', w).val == SemView(y, w).val + 1
    requires SemView(y, w).val < 0 ==> q != []
    requires q' == if SemView(y, w).val < 0 then q[1..] else q
    requires y.tasks[i].thread in y.current && y.current[y.tasks[i].thread] == i &&
             forall v :: !Queued(y, y.tasks[i].thread, v)
    requires NoDup(q) && forall t: nat, v :: t in q && v != w ==> !Queued(y, t, v)
    ensures Signalled(y, y', i, w, q, q')
  {
    hide NoDup, Queued, SemView, SemStep;
  }

  // ----- whole runs

  // Every move of the system is a step of the protocol, the beginning of a call, or nothing to it.
  lemma MoveProjects(y: System, place: KernelPlaces.Places, mv: Move)
    returns (place': KernelPlaces.Places, es: seq<Event>)
    requires Ok(y, place) && MayMove(y, mv)
    ensures Ok(Next(y, mv), place') && BufferSpec.Run(View(y), es, View(Next(y, mv)))
    ensures mv.Trap? ==> es == []
    ensures mv.StartCall? ==> es == [Enter(mv.kind, mv.val)]
    ensures mv.NextStep? ==> y.k.running in y.current && es == [Go(y.current[y.k.running])]
  {
    match mv
    case Trap(op) =>
      place' := TrapKeeps(y, place, op);
      es := [];
    case StartCall(kind, v) =>
      StartProjects(y, place, kind, v);
      place', es := place, [Enter(kind, v)];
      hide *;
      OneEvent(View(y), es[0], View(Next(y, mv)));
    case NextStep =>
      var i := ActiveCall(y, place);
      hide *;
      match Doing(y) {
        case Wait(w) => place' := WaitProjects(y, place, w);
        case Signal(w) => place' := SignalProjects(y, place, w);
        case _ =>
          BodyProjects(y, place);
          place' := place;
      }
      es := [Go(i)];
      StepsToParts(y, Next(y, mv), i);
      OneEvent(View(y), es[0], View(Next(y, mv)));
  }

  lemma StepsToParts(y: System, y': System, i: nat)
    requires StepsTo(y, y', i)
    ensures CanStep(View(y), i) && InSlots(View(y), i) && View(y') == BufferSpec.Step(View(y), i)
  {
  }

  lemma OneEvent(b: BState, e: Event, b': BState)
    requires match e
             case Enter(k, v) => b' == Begin(b, k, v)
             case Go(i) => CanStep(b, i) && InSlots(b, i) && b' == BufferSpec.Step(b, i)
    ensures BufferSpec.Run(b, [e], b')
  {
    assert [e][1..] == [];
  }

  lemma {:induction false} RunOn(b: BState, es: seq<Event>, b1: BState, fs: seq<Event>, b2: BState)
    requires BufferSpec.Run(b, es, b1) && BufferSpec.Run(b1, fs, b2)
    ensures BufferSpec.Run(b, es + fs, b2)
    decreases |es|
  {
    if es == [] {
      assert es + fs == fs;
    } else {
      assert (es + fs)[1..] == es[1..] + fs;
      match es[0]
      case Enter(k, v) => RunOn(Begin(b, k, v), es[1..], b1, fs, b2);
      case Go(i) => RunOn(BufferSpec.Step(b, i), es[1..], b1, fs, b2);
    }
  }

  // Every run of threads on the kernel, whatever they do besides and whenever they are interrupted, is a
  // run of the buffer's protocol.
  lemma {:induction false} RunProjects(y: System, place: KernelPlaces.Places, mvs: seq<Move>, y': System)
    returns (place': KernelPlaces.Places, es: seq<Event>)
    requires Ok(y, place) && SystemRun(y, mvs, y')
    ensures Ok(y', place') && BufferSpec.Run(View(y), es, View(y'))
    decreases |mvs|
  {
    hide Ok, View, Next, MayMove;
    place', es := place, [];
    if mvs != [] {
      var place1, es1 := MoveProjects(y, place, mvs[0]);
      var es2;
      place', es2 := RunProjects(Next(y, mvs[0]), place1, mvs[1..], y');
      hide *;
      RunOn(View(y), es1, View(Next(y, mvs[0])), es2, View(y'));
      es := es1 + es2;
    }
  }

  // The buffer just made: its semaphores were opened with their initial values, and nobody calls.
  function Fresh(k: KernelSpec.KState, names: Names, cap: nat, slots: seq<int>): System {
    System(k, names, cap, slots, 0, 0, [], map[], [], [])
  }

  predicate FreshSems(k: KernelSpec.KState, names: Names, cap: nat) {
    && (forall v, w :: v != w ==> NameOf(names, v) != NameOf(names, w))
    && names.item in k.sems && k.sems[names.item] == Sem(0, []) && names.space in k.sems &&
       k.sems[names.space] == Sem(cap, [])
    && names.mutexHead in k.sems && k.sems[names.mutexHead] == Sem(1, [])
    && names.mutexTail in k.sems && k.sems[names.mutexTail] == Sem(1, [])
  }

  lemma FreshOk(k: KernelSpec.KState, place: KernelPlaces.Places, names: Names, cap: nat, slots: seq<int>)
    requires KernelSteps.Sound(k, place) && FreshSems(k, names, cap) && |slots| >= cap
    ensures Ok(Fresh(k, names, cap, slots), place) && View(Fresh(k, names, cap, slots)) == Init(cap, slots)
  {
    hide KernelSteps.Sound, Inv;
    var y := Fresh(k, names, cap, slots);
    forall w
      ensures SemView(y, w) == SemOf(Init(cap, slots), w) && NameOf(y.names, w) in y.k.sems
    {
    }
    ViewIs(y);
    SameState(View(y), Init(cap, slots));
    InitInv(cap, slots);
    MakeOk(y, place);
  }

  // The first thread makes a buffer right after the kernel has started.
  lemma FreshReached(idle: nat, first: nat, slice: nat, cap: nat, slots: seq<int>)
    returns (ops: seq<KernelSpec.Trap>, k: KernelSpec.KState, place: KernelPlaces.Places)
    requires idle != first && |slots| >= cap
    ensures KernelSpec.Run(KernelRuns.Boot(idle, first, slice), ops, k)
    ensures FreshSems(k, Names(0, 1, 2, 3), cap) && Ok(Fresh(k, Names(0, 1, 2, 3), cap, slots), place)
  {
    var k0 := KernelRuns.Boot(idle, first, slice);
    var k1 := k0.(sems := map[0 := Sem(0, [])]);
    var k2 := k0.(sems := map[0 := Sem(0, []), 1 := Sem(cap, [])]);
    var k3 := k0.(sems := map[0 := Sem(0, []), 1 := Sem(cap, []), 2 := Sem(1, [])]);
    k := k0.(sems := map[0 := Sem(0, []), 1 := Sem(cap, []), 2 := Sem(1, []), 3 := Sem(1, [])]);
    OpenFirst(k0, 0, 0, k1);
    OpenFirst(k1, 1, cap, k2);
    OpenFirst(k2, 2, 1, k3);
    OpenFirst(k3, 3, 1, k);
    ops := [KernelSpec.Open(0, 0), KernelSpec.Open(1, cap), KernelSpec.Open(2, 1), KernelSpec.Open(3, 1)];
    FourSteps(k0, k1, k2, k3, k, ops);
    KernelRuns.BootSound(idle, first, slice);
    hide *;
    place := KernelRuns.RunSound(k0, map[first := KernelPlaces.Running], ops, k);
    FreshSemsHere(k, cap);
    FreshOk(k, place, Names(0, 1, 2, 3), cap, slots);
  }

  // Opening a semaphore while nobody is ready.
  lemma OpenFirst(k: KernelSpec.KState, s: nat, init: nat, k': KernelSpec.KState)
    requires k.running in k.threads && !k.threads[k.running].finished && k.running != k.idle && k.ready == []
    requires s !in k.sems && k' == k.(sems := k.sems[s := Sem(init, [])])
    ensures KernelSpec.Allowed(k, KernelSpec.Open(s, init)) && KernelSpec.Step(k, KernelSpec.Open(s, init)) == k'
  {
  }

  lemma FourSteps(k0: KernelSpec.KState, k1: KernelSpec.KState, k2: KernelSpec.KState, k3: KernelSpec.KState,
                  k4: KernelSpec.KState, ops: seq<KernelSpec.Trap>)
    requires |ops| == 4 && KernelSpec.Allowed(k0, ops[0]) && KernelSpec.Step(k0, ops[0]) == k1
    requires KernelSpec.Allowed(k1, ops[1]) && KernelSpec.Step(k1, ops[1]) == k2
    requires KernelSpec.Allowed(k2, ops[2]) && KernelSpec.Step(k2, ops[2]) == k3
    requires KernelSpec.Allowed(k3, ops[3]) && KernelSpec.Step(k3, ops[3]) == k4
    ensures KernelSpec.Run(k0, ops, k4)
  {
    hide KernelSpec.Allowed, KernelSpec.Step;
    assert ops[1..][0] == ops[1] && ops[1..][1..] == ops[2..] && ops[2..][0] == ops[2];
    assert ops[2..][1..] == ops[3..] && ops[3..][0] == ops[3] && ops[3..][1..] == [];
    assert KernelSpec.Run(k4, [], k4);
    assert KernelSpec.Run(k3, ops[3..], k4);
    assert KernelSpec.Run(k2, ops[2..], k4);
    assert KernelSpec.Run(k1, ops[1..], k4);
  }

  lemma FreshSemsHere(k: KernelSpec.KState, cap: nat)
    requires k.sems == map[0 := Sem(0, []), 1 := Sem(cap, []), 2 := Sem(1, []), 3 := Sem(1, [])]
    ensures FreshSems(k, Names(0, 1, 2, 3), cap)
  {
  }

  // On the kernel, from a sound state in which the buffer was just made: whatever threads run, call and are
  // interrupted, the values got are the first of the values put, in their order, and at most cap are stored.
  lemma FirstInFirstOut(k: KernelSpec.KState, place: KernelPlaces.Places, names: Names, cap: nat, slots: seq<int>,
                        mvs: seq<Move>, y: System)
    requires KernelSteps.Sound(k, place) && FreshSems(k, names, cap) && |slots| >= cap
    requires SystemRun(Fresh(k, names, cap, slots), mvs, y)
    ensures y.read <= y.written && |y.written| <= |y.read| + cap
    ensures |y.buf| > 0 ==> forall j: nat :: |y.read| <= j < |y.written| ==> y.buf[j % |y.buf|] == y.written[j]
  {
    hide *;
    FreshOk(k, place, names, cap, slots);
    var place', es := RunProjects(Fresh(k, names, cap, slots), place, mvs, y);
    BufferTheorems.FirstInFirstOut(cap, slots, es, View(y));
    StoredIs(View(y));
    ViewIs(y);
  }

  lemma StoredIs(b: BState)
    ensures BufferTheorems.Stored(b) == |b.written| - |b.read|
  {
  }
}
