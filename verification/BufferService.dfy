// What the threads that use a bounded buffer on the kernel can count on: no call is lost, somebody can
// always go on unless all wait for the same thing, and who can go on gets the processor before long.
module BufferService {
  import opened Sequences
  import opened BufferSpec
  import opened BufferProtocol
  import BufferTheorems
  import KernelSpec
  import KernelPlaces
  import KernelSteps
  import KernelRuns
  import KernelFairness
  import opened BufferOnKernel

  // ----- where the threads in calls are

  // Thread t is ready, runs, or waits for a semaphore of the buffer.
  ghost predicate AtWork(y: System, t: nat) {
    && t in y.k.threads && !y.k.threads[t].finished && t != y.k.idle
    && (t in y.k.ready || t == y.k.running || exists w :: Queued(y, t, w))
  }

  // A call that is not its thread's last one is finished.
  predicate PastDone(y: System) {
    forall i: nat :: i < |y.tasks| ==>
      var c := y.tasks[i]; c.thread in y.current && (y.current[c.thread] == i || ActionAt(c, c.pc) == Finished)
  }

  ghost predicate NoneLost(y: System) {
    PastDone(y) && forall t: nat :: Busy(y, t) ==> AtWork(y, t)
  }

  lemma MakeNoneLost(y: System)
    requires PastDone(y) && forall t: nat :: Busy(y, t) ==> AtWork(y, t)
    ensures NoneLost(y)
  {
    hide PastDone, Busy, AtWork;
  }

  lemma WorkerRunnable(y: System, t: nat)
    requires AtWork(y, t)
    ensures KernelFairness.Runnable(y.k, t) || exists w :: Queued(y, t, w)
    ensures t in y.k.threads && !y.k.threads[t].finished && t != y.k.idle
  {
  }

  lemma MakeAtWork(y: System, t: nat)
    requires KernelFairness.Runnable(y.k, t)
    ensures AtWork(y, t)
  {
  }

  lemma StillQueued(y: System, y': System, t: nat, w: Which, op: KernelSpec.Trap)
    requires KernelSpec.Allowed(y.k, op) && y'.k == KernelSpec.Step(y.k, op) && AtWork(y, t) && Queued(y', t, w)
    requires t != y.k.running
    ensures AtWork(y', t)
  {
    KernelFairness.StepUnaltered(y.k, op);
    hide KernelSpec.Step, KernelSpec.Allowed;
  }

  lemma TrapKeepsWork(y: System, place: KernelPlaces.Places, op: KernelSpec.Trap)
    requires Ok(y, place) && MayMove(y, Trap(op)) && NoneLost(y)
    ensures NoneLost(Next(y, Trap(op)))
  {
    var y' := Next(y, Trap(op));
    TrapIs(y, op);
    OkParts(y, place);
    hide Ok, Inv, KernelSteps.Sound, KernelSpec.Step, KernelSpec.Allowed, AtWork, Queued, Next, CurrentOk, WaitersOk;
    forall t: nat | Busy(y', t)
      ensures AtWork(y', t)
    {
      assert Busy(y, t);
      WorkerRunnable(y, t);
      if w :| Queued(y, t, w) {
        KernelRuns.OtherSteps(y.k, op, NameOf(y.names, w));
        SameQueue(y, y', t, w);
        QueuedNotRunning(y, place, t, w);
        StillQueued(y, y', t, w, op);
      } else {
        KernelFairness.RunnableStays(y.k, place, op, t);
        MakeAtWork(y', t);
      }
    }
    MakeNoneLost(y');
  }

  lemma SameQueue(y: System, y': System, t: nat, w: Which)
    requires y'.names == y.names && Queued(y, t, w) && NameOf(y.names, w) in y'.k.sems
    requires y'.k.sems[NameOf(y.names, w)] == y.k.sems[NameOf(y.names, w)]
    ensures Queued(y', t, w)
  {
  }

  lemma QueuedNotRunning(y: System, place: KernelPlaces.Places, t: nat, w: Which)
    requires KernelSteps.Sound(y.k, place) && Queued(y, t, w) && AtWork(y, t)
    ensures t != y.k.running
  {
    if t == y.k.running {
      RunningNotQueued(y, place, w);
    }
  }

  lemma StartKeepsWork(y: System, kind: Kind, v: int)
    requires MayMove(y, StartCall(kind, v)) && NoneLost(y) && CurrentOk(y)
    ensures NoneLost(Next(y, StartCall(kind, v)))
  {
    var y', r := Next(y, StartCall(kind, v)), y.k.running;
    forall i: nat | i < |y'.tasks|
      ensures var c := y'.tasks[i];
              c.thread in y'.current && (y'.current[c.thread] == i || ActionAt(c, c.pc) == Finished)
    {
      if i < |y.tasks| {
        assert y'.tasks[i] == y.tasks[i];
      }
    }
    forall t: nat | Busy(y', t)
      ensures AtWork(y', t)
    {
      if t != r {
        assert y'.tasks[y.current[t]] == y.tasks[y.current[t]] && Busy(y, t) && AtWork(y, t);
        assert forall w :: Queued(y', t, w) <==> Queued(y, t, w);
      }
    }
  }

  // The next step of the running thread's call, seen from the calls.
  lemma StepTasks(y: System)
    requires MayMove(y, NextStep) && CurrentOk(y)
    ensures y.k.running in y.current && y.current[y.k.running] < |y.tasks|
    ensures var y', i := Next(y, NextStep), y.current[y.k.running];
            && y'.current == y.current && y'.names == y.names && |y'.tasks| == |y.tasks|
            && y.tasks[i].thread == y'.tasks[i].thread == y.k.running
            && (forall j: nat :: j < |y.tasks| && j != i ==> y'.tasks[j] == y.tasks[j])
    ensures Busy(y, y.k.running)
  {
    hide KernelSpec.Step, ActionAt;
  }

  // What it asks of the kernel, if anything.
  lemma StepTraps(y: System)
    requires MayMove(y, NextStep)
    ensures match Doing(y)
            case Wait(w) =>
              var op := KernelSpec.WaitSem(NameOf(y.names, w));
              KernelSpec.Allowed(y.k, op) && Next(y, NextStep).k == KernelSpec.Step(y.k, op)
            case Signal(w) =>
              var op := KernelSpec.SignalSem(NameOf(y.names, w));
              KernelSpec.Allowed(y.k, op) && Next(y, NextStep).k == KernelSpec.Step(y.k, op)
            case _ => Next(y, NextStep).k == y.k
  {
    hide KernelSpec.Step, ActionAt;
  }

  lemma SameKernel(y: System, y': System, t: nat)
    requires y'.k == y.k && y'.names == y.names && AtWork(y, t)
    ensures AtWork(y', t)
  {
    assert forall w :: Queued(y', t, w) <==> Queued(y, t, w);
  }

  // The running thread waits: it goes on, or is in the queue.
  lemma WaiterWorks(y: System, y': System, place: KernelPlaces.Places, w: Which)
    requires KernelSteps.Sound(y.k, place) && AtWork(y, y.k.running) && NameOf(y.names, w) in y.k.sems
    requires y'.names == y.names && KernelSpec.Allowed(y.k, KernelSpec.WaitSem(NameOf(y.names, w)))
    requires y'.k == KernelSpec.Step(y.k, KernelSpec.WaitSem(NameOf(y.names, w)))
    ensures AtWork(y', y.k.running)
  {
    var s := NameOf(y.names, w);
    KernelFairness.StepUnaltered(y.k, KernelSpec.WaitSem(s));
    KernelRuns.SemStep(y.k, place, KernelSpec.WaitSem(s), s);
    hide KernelSteps.Sound;
    if y.k.sems[s].val <= 0 {
      hide KernelSpec.Step;
      var q := y'.k.sems[s].queue;
      assert q[|q| - 1] == y.k.running;
      assert Queued(y', y.k.running, w);
    }
  }

  // The running thread signals: whoever is let past is ready.
  lemma SignalReadies(k: KernelSpec.KState, place: KernelPlaces.Places, s: nat)
    requires KernelSteps.Sound(k, place) && KernelSpec.Allowed(k, KernelSpec.SignalSem(s))
    ensures var k' := KernelSpec.Step(k, KernelSpec.SignalSem(s));
            && k'.running == k.running
            && (k.sems[s].val < 0 && k.sems[s].queue != [] && k.sems[s].queue[0] != k.idle ==>
                  k'.ready == k.ready + [k.sems[s].queue[0]])
            && (forall t :: t in k.ready ==> t in k'.ready)
  {
  }

  lemma OthersWork(y: System, y': System, place: KernelPlaces.Places, w: Which, op: KernelSpec.Trap, t: nat)
    requires Ok(y, place) && MayMove(y, NextStep) && AtWork(y, t) && t != y.k.running
    requires op == KernelSpec.WaitSem(NameOf(y.names, w)) || op == KernelSpec.SignalSem(NameOf(y.names, w))
    requires KernelSpec.Allowed(y.k, op) && y'.k == KernelSpec.Step(y.k, op) && y'.names == y.names
    ensures AtWork(y', t)
  {
    OkParts(y, place);
    hide *;
    WorkerRunnable(y, t);
    KernelFairness.StepUnaltered(y.k, op);
    if v :| Queued(y, t, v) {
      QueuedAfter(y, y', place, w, op, t, v);
    } else {
      KernelFairness.RunnableStays(y.k, place, op, t);
      MakeAtWork(y', t);
    }
  }

  // Who waits for s before a wait or a signal does so afterwards, or was the first and is let past.
  lemma InQueueAfter(k: KernelSpec.KState, place: KernelPlaces.Places, op: KernelSpec.Trap, s: nat, t: nat)
    requires KernelSteps.Sound(k, place) && KernelSpec.Allowed(k, op) && s in k.sems && t in k.sems[s].queue
    requires op == KernelSpec.WaitSem(s) || op == KernelSpec.SignalSem(s)
    ensures var k', q := KernelSpec.Step(k, op), k.sems[s].queue;
            s in k'.sems && (t in k'.sems[s].queue || (op.SignalSem? && k.sems[s].val < 0 && q != [] && q[0] == t))
  {
    KernelRuns.SemStep(k, place, op, s);
    hide KernelSteps.Sound, KernelSpec.Step, KernelSpec.Allowed;
    assert KernelRuns.Leaving(k, op, s) <= 1;
  }

  lemma QueuedAfter(y: System, y': System, place: KernelPlaces.Places, w: Which, op: KernelSpec.Trap, t: nat, v: Which)
    requires KernelSteps.Sound(y.k, place) && NamesOk(y) && AtWork(y, t) && t != y.k.running && Queued(y, t, v)
    requires op == KernelSpec.WaitSem(NameOf(y.names, w)) || op == KernelSpec.SignalSem(NameOf(y.names, w))
    requires KernelSpec.Allowed(y.k, op) && y'.k == KernelSpec.Step(y.k, op) && y'.names == y.names
    ensures AtWork(y', t)
  {
    hide KernelSteps.Sound, KernelSpec.Step, KernelSpec.Allowed, AtWork;
    var s := NameOf(y.names, w);
    if v != w {
      KernelRuns.OtherSteps(y.k, op, NameOf(y.names, v));
      SameQueue(y, y', t, v);
      StillQueued(y, y', t, v, op);
    } else {
      InQueueAfter(y.k, place, op, s, t);
      if t in y'.k.sems[s].queue {
        StillQueued(y, y', t, w, op);
      } else {
        LetPast(y, y', place, w, t);
      }
    }
  }

  lemma LetPast(y: System, y': System, place: KernelPlaces.Places, w: Which, t: nat)
    requires KernelSteps.Sound(y.k, place) && AtWork(y, t) && Queued(y, t, w)
    requires var m := y.k.sems[NameOf(y.names, w)]; m.val < 0 && m.queue != [] && m.queue[0] == t
    requires KernelSpec.Allowed(y.k, KernelSpec.SignalSem(NameOf(y.names, w)))
    requires y'.k == KernelSpec.Step(y.k, KernelSpec.SignalSem(NameOf(y.names, w)))
    ensures AtWork(y', t)
  {
    SignalReadies(y.k, place, NameOf(y.names, w));
    KernelFairness.StepUnaltered(y.k, KernelSpec.SignalSem(NameOf(y.names, w)));
    hide KernelSteps.Sound, KernelSpec.Step, KernelSpec.Allowed;
    assert y'.k.ready[|y.k.ready|] == t;
  }

  // The thread t after the next step of the running thread's call.
  lemma ThreadWorks(y: System, place: KernelPlaces.Places, t: nat)
    requires Ok(y, place) && MayMove(y, NextStep) && AtWork(y, t) && AtWork(y, y.k.running)
    ensures AtWork(Next(y, NextStep), t)
  {
    hide *;
    OkParts(y, place);
    StepTasks(y);
    StepTraps(y);
    var y', r := Next(y, NextStep), y.k.running;
    match Doing(y)
    case Wait(w) =>
      if t == r {
        NamesThere(y, w);
        WaiterWorks(y, y', place, w);
      } else {
        OthersWork(y, y', place, w, KernelSpec.WaitSem(NameOf(y.names, w)), t);
      }
    case Signal(w) =>
      if t == r {
        SignallerWorks(y, y', place, w);
      } else {
        OthersWork(y, y', place, w, KernelSpec.SignalSem(NameOf(y.names, w)), t);
      }
    case _ => SameKernel(y, y', t);
  }

  lemma StepKeepsWork(y: System, place: KernelPlaces.Places)
    requires Ok(y, place) && MayMove(y, NextStep) && NoneLost(y)
    ensures NoneLost(Next(y, NextStep))
  {
    OkParts(y, place);
    StepTasks(y);
    var y' := Next(y, NextStep);
    hide Ok, Inv, KernelSteps.Sound, AtWork, Next, NamesOk, WaitersOk, MayMove, ActionAt, View;
    forall t: nat | Busy(y', t)
      ensures AtWork(y', t)
    {
      assert Busy(y, t) && AtWork(y, t);
      ThreadWorks(y, place, t);
    }
  }

  lemma SignallerWorks(y: System, y': System, place: KernelPlaces.Places, w: Which)
    requires KernelSteps.Sound(y.k, place) && AtWork(y, y.k.running)
    requires KernelSpec.Allowed(y.k, KernelSpec.SignalSem(NameOf(y.names, w)))
    requires y'.k == KernelSpec.Step(y.k, KernelSpec.SignalSem(NameOf(y.names, w)))
    ensures AtWork(y', y.k.running)
  {
    SignalReadies(y.k, place, NameOf(y.names, w));
    KernelFairness.StepUnaltered(y.k, KernelSpec.SignalSem(NameOf(y.names, w)));
    hide KernelSteps.Sound, KernelSpec.Step, KernelSpec.Allowed;
  }

  // ----- whole runs

  // No call is ever lost: its thread stays ready, running or in a queue of the buffer.
  lemma {:induction false} RunKeepsWork(y: System, place: KernelPlaces.Places, mvs: seq<Move>, y': System)
    requires Ok(y, place) && NoneLost(y) && SystemRun(y, mvs, y')
    ensures NoneLost(y')
    decreases |mvs|
  {
    hide Ok, View, Next, MayMove, NoneLost;
    if mvs != [] {
      var place1, es1 := MoveProjects(y, place, mvs[0]);
      MoveKeepsWork(y, place, mvs[0]);
      RunKeepsWork(Next(y, mvs[0]), place1, mvs[1..], y');
    }
  }

  lemma MoveKeepsWork(y: System, place: KernelPlaces.Places, mv: Move)
    requires Ok(y, place) && MayMove(y, mv) && NoneLost(y)
    ensures NoneLost(Next(y, mv))
  {
    OkParts(y, place);
    hide *;
    match mv
    case Trap(op) => TrapKeepsWork(y, place, op);
    case StartCall(kind, v) => StartKeepsWork(y, kind, v);
    case NextStep => StepKeepsWork(y, place);
  }

  // ----- somebody can go on

  // All threads in calls wait for w.
  ghost predicate AllWait(y: System, w: Which) {
    forall t: nat :: Busy(y, t) ==> Queued(y, t, w)
  }

  // A call the protocol lets step is the call its thread is in, and the thread can run.
  lemma StepperRuns(y: System, place: KernelPlaces.Places, i: nat)
    requires Ok(y, place) && NoneLost(y) && CanStep(View(y), i)
    ensures i < |y.tasks| && Busy(y, y.tasks[i].thread) && KernelFairness.Runnable(y.k, y.tasks[i].thread)
  {
    OkParts(y, place);
    ViewIs(y);
    hide Ok, Inv, KernelSteps.Sound, View, Queued, ActionAt;
    var t := y.tasks[i].thread;
    NotWaiting(y, i);
    assert y.current[t] == i && Busy(y, t) && AtWork(y, t);
    WorkerRunnable(y, t);
    NotQueued(y, i);
  }

  lemma NotQueued(y: System, i: nat)
    requires CurrentOk(y) && WaitersOk(y) && i < |y.tasks| && !Waits(y, i)
    requires y.tasks[i].thread in y.current && y.current[y.tasks[i].thread] == i
    ensures forall w :: !Queued(y, y.tasks[i].thread, w)
  {
    hide Queued;
  }

  lemma NotWaiting(y: System, i: nat)
    requires i < |y.tasks| && !CallOf(y, i).blocked && ActionOf(CallOf(y, i)) != Finished
    ensures !Waits(y, i) && ActionAt(y.tasks[i], y.tasks[i].pc) != Finished
  {
    hide Waits;
  }

  // The call of a thread in a call is not finished in the protocol either.
  lemma BusyUnfinished(y: System, t: nat)
    requires Busy(y, t) && CurrentOk(y)
    ensures y.current[t] < |y.tasks| && BufferTheorems.Unfinished(View(y), y.current[t])
    ensures View(y).calls[y.current[t]] == CallOf(y, y.current[t])
  {
    ViewIs(y);
    hide View, Waits;
  }

  // A call blocked in a wait on w is in the queue of w.
  lemma BlockedQueued(y: System, t: nat, w: Which)
    requires CurrentOk(y) && WaitersOk(y) && t in y.current && y.current[t] < |y.tasks|
    requires CallOf(y, y.current[t]).blocked && ActionOf(CallOf(y, y.current[t])) == Wait(w)
    ensures Queued(y, t, w)
  {
    var v :| Queued(y, y.tasks[y.current[t]].thread, v);
  }

  lemma AllBlocked(y: System, w: Which)
    requires CurrentOk(y) && WaitersOk(y)
    requires forall i: nat :: BufferTheorems.Unfinished(View(y), i) ==>
               View(y).calls[i].blocked && ActionOf(View(y).calls[i]) == Wait(w)
    ensures AllWait(y, w)
  {
    hide View, Queued, Busy, CurrentOk, WaitersOk, CallOf;
    forall t: nat | Busy(y, t)
      ensures Queued(y, t, w)
    {
      BusyUnfinished(y, t);
      BusyCurrent(y, t);
      BlockedQueued(y, t, w);
    }
  }

  lemma BusyCurrent(y: System, t: nat)
    requires Busy(y, t)
    ensures t in y.current && y.current[t] < |y.tasks|
  {
  }

  // In a state that a run of the system can reach, with room for at least one item: some thread in a call is
  // ready or runs, or all of them are queued for space at a full buffer, or all for an item at an empty one;
  // in these cases a thread that makes the other kind of call finds both its semaphores free.
  lemma SomebodyGoesOn(y: System, place: KernelPlaces.Places)
    requires Ok(y, place) && NoneLost(y) && y.cap >= 1
    ensures var stored := |y.written| - |y.read|;
            || (exists t: nat :: Busy(y, t) && KernelFairness.Runnable(y.k, t))
            || (AllWait(y, Space) && stored == y.cap && Free(y, Item) && Free(y, Head))
            || (AllWait(y, Item) && stored == 0 && Free(y, Space) && Free(y, Tail))
            || forall t: nat :: !Busy(y, t)
  {
    OkParts(y, place);
    ViewIs(y);
    StoredIs(View(y));
    FreeIs(y);
    hide Ok, Inv, KernelSteps.Sound, View, NoneLost, Busy, KernelFairness.Runnable, CanStep, AllWait, CurrentOk,
         WaitersOk;
    hide Free, BufferTheorems.Unfinished;
    var b := View(y);
    if i: nat :| CanStep(b, i) {
      StepperRuns(y, place, i);
    } else {
      BufferTheorems.Progress(b);
      BufferTheorems.OtherSideFree(b);
      if BufferTheorems.AllWaitForSpace(b) {
        AllBlocked(y, Space);
      } else if BufferTheorems.AllWaitForItems(b) {
        AllBlocked(y, Item);
      } else {
        forall t: nat
          ensures !Busy(y, t)
        {
          if Busy(y, t) {
            BusyUnfinished(y, t);
          }
        }
      }
    }
  }

  // A wait on w passes.
  predicate Free(y: System, w: Which) {
    NameOf(y.names, w) in y.k.sems && y.k.sems[NameOf(y.names, w)].val >= 1
  }

  lemma FreeIs(y: System)
    requires NamesOk(y)
    ensures forall w :: Free(y, w) <==> SemOf(View(y), w).val >= 1
  {
  }

  // ----- and it does go on

  // Threads are created with time slices of at most max.
  predicate QuickMove(mv: Move, max: nat) {
    mv.Trap? ==> KernelFairness.QuickTrap(mv.op, max)
  }

  function TicksIn(mvs: seq<Move>): nat {
    if mvs == [] then 0 else (if mvs[0] == Trap(KernelSpec.Timer) then 1 else 0) + TicksIn(mvs[1..])
  }

  // A move of the system is one trap at most.
  lemma MoveTrap(y: System, mv: Move) returns (op: Option<KernelSpec.Trap>)
    requires MayMove(y, mv)
    ensures op == None ==> Next(y, mv).k == y.k && mv != Trap(KernelSpec.Timer)
    ensures op.Some? ==> KernelSpec.Allowed(y.k, op.value) && Next(y, mv).k == KernelSpec.Step(y.k, op.value)
    ensures op.Some? ==> (op.value == KernelSpec.Timer <==> mv == Trap(KernelSpec.Timer))
    ensures op.Some? && mv.Trap? ==> op.value == mv.op
    ensures op.Some? && !mv.Trap? ==> !op.value.Create?
  {
    match mv
    case StartCall(_, _) => op := None;
    case Trap(o) =>
      TrapIs(y, o);
      op := Some(o);
    case NextStep =>
      StepTraps(y);
      hide MayMove, KernelSpec.Allowed, KernelSpec.Step, Next;
      match Doing(y) {
        case Wait(w) => op := Some(KernelSpec.WaitSem(NameOf(y.names, w)));
        case Signal(w) => op := Some(KernelSpec.SignalSem(NameOf(y.names, w)));
        case _ => op := None;
      }
  }

  // One move: the thread at position p of the ready queue comes to run, or comes closer to it.
  lemma OneMoveCloser(y: System, place: KernelPlaces.Places, mv: Move, p: nat, max: nat) returns (p': nat)
    requires KernelSteps.Sound(y.k, place) && MayMove(y, mv) && p < |y.k.ready|
    requires KernelFairness.Quick(y.k, max) && QuickMove(mv, max)
    ensures var k', t := Next(y, mv).k, y.k.ready[p];
            && KernelFairness.Quick(k', max)
            && (k'.running == t || (p' < |k'.ready| && k'.ready[p'] == t
                                    && max * (p' + 1) - k'.counter + TicksIn([mv]) <= max * (p + 1) - y.k.counter))
  {
    hide *;
    var op := MoveTrap(y, mv);
    OneTick(mv);
    p' := p;
    if op.Some? {
      QuickOnes(mv, op.value, max);
      p' := KernelFairness.OneStepCloser(y.k, place, op.value, p, max);
    }
  }

  lemma OneTick(mv: Move)
    ensures TicksIn([mv]) == if mv == Trap(KernelSpec.Timer) then 1 else 0
  {
    assert [mv][1..] == [];
  }

  lemma QuickOnes(mv: Move, op: KernelSpec.Trap, max: nat)
    requires QuickMove(mv, max) && (mv.Trap? ==> op == mv.op) && (!mv.Trap? ==> !op.Create?)
    ensures KernelFairness.QuickTrap(op, max)
  {
  }

  // max * (p + 1) ticks are enough for the thread at position p of the ready queue, one in a call say, to
  // come to run, whatever the other threads do.
  lemma {:induction false} ServedSoon(y: System, place: KernelPlaces.Places, mvs: seq<Move>, y': System, p: nat,
                                      max: nat)
    returns (n: nat, y1: System)
    requires Ok(y, place) && SystemRun(y, mvs, y') && p < |y.k.ready|
    requires KernelFairness.Quick(y.k, max) && forall mv :: mv in mvs ==> QuickMove(mv, max)
    requires TicksIn(mvs) + y.k.counter >= max * (p + 1)
    ensures n <= |mvs| && SystemRun(y, mvs[..n], y1) && y1.k.running == y.k.ready[p]
    decreases |mvs|
  {
    hide Ok, View, Next, MayMove, KernelFairness.Quick, QuickMove, BufferSpec.Run;
    QuickEnough(y.k, max, p);
    if mvs == [] {
      assert false;
    } else {
      assert mvs[0] in mvs && forall mv :: mv in mvs[1..] ==> mv in mvs;
      OneTick(mvs[0]);
      OkSound(y, place);
      var place2, es := MoveProjects(y, place, mvs[0]);
      var p2 := OneMoveCloser(y, place, mvs[0], p, max);
      if Next(y, mvs[0]).k.running == y.k.ready[p] {
        n, y1 := 1, Next(y, mvs[0]);
        assert mvs[..1] == [mvs[0]] && [mvs[0]][1..] == [];
      } else {
        n, y1 := ServedSoon(Next(y, mvs[0]), place2, mvs[1..], y', p2, max);
        assert mvs[..n + 1][1..] == mvs[1..][..n] && mvs[..n + 1][0] == mvs[0];
        n := n + 1;
      }
    }
  }

  lemma QuickEnough(k: KernelSpec.KState, max: nat, p: nat)
    requires KernelFairness.Quick(k, max)
    ensures k.counter < max <= max * (p + 1)
  {
    KernelFairness.Multiples(max, p);
  }

  lemma OkSound(y: System, place: KernelPlaces.Places)
    requires Ok(y, place)
    ensures KernelSteps.Sound(y.k, place)
  {
  }

  // ----- from the beginning

  // Everything that is kept in any run of threads that use a new buffer.
  lemma Reached(k: KernelSpec.KState, place: KernelPlaces.Places, names: Names, cap: nat, slots: seq<int>,
                mvs: seq<Move>, y: System)
    returns (place': KernelPlaces.Places)
    requires KernelSteps.Sound(k, place) && FreshSems(k, names, cap) && |slots| >= cap
    requires SystemRun(Fresh(k, names, cap, slots), mvs, y)
    ensures Ok(y, place') && NoneLost(y) && y.cap == cap && |y.buf| == |slots|
  {
    var y0 := Fresh(k, names, cap, slots);
    FreshOk(k, place, names, cap, slots);
    assert NoneLost(y0);
    hide *;
    RunKeepsWork(y0, place, mvs, y);
    var es;
    place', es := RunProjects(y0, place, mvs, y);
    BufferTheorems.RunCap(View(y0), es, View(y));
    ViewIs(y0);
    ViewIs(y);
    FreshIs(k, names, cap, slots);
  }

  lemma FreshIs(k: KernelSpec.KState, names: Names, cap: nat, slots: seq<int>)
    ensures Fresh(k, names, cap, slots).cap == cap && Fresh(k, names, cap, slots).buf == slots
  {
  }

  // The running thread is about to write: there is room, and the slot's old value was read.
  lemma WritesFreeSlot(y: System, place: KernelPlaces.Places)
    requires Ok(y, place) && MayMove(y, NextStep) && Doing(y) == Write
    ensures |y.buf| > 0 && y.tail == |y.written| % |y.buf| && |y.written| - |y.read| < y.cap
    ensures |y.written| >= |y.buf| ==> y.read[..|y.written| - |y.buf| + 1] == y.written[..|y.written| - |y.buf| + 1]
  {
    hide *;
    OkParts(y, place);
    var i := ActiveCall(y, place);
    ViewIs(y);
    StoredIs(View(y));
    BufferTheorems.NeverOverwritten(View(y), i);
  }

  // The running thread is in getCnt and about to compute: with a spare slot it gets the number of items
  // stored; without one it does just when the buffer is not full, or has no slots at all, and 0 when it is full.
  lemma CountsStored(y: System, place: KernelPlaces.Places)
    requires Ok(y, place) && MayMove(y, NextStep) && Doing(y) == Compute
    ensures var y', i, stored := Next(y, NextStep), Active(y), |y.written| - |y.read|;
            && i < |y'.tasks|
            && (|y.buf| == y.cap + 1 ==> y'.tasks[i].val == stored)
            && (|y.buf| == y.cap ==> (y'.tasks[i].val == stored <==> stored < y.cap || y.cap == 0))
            && (|y.buf| == y.cap == stored ==> y'.tasks[i].val == 0)
  {
    hide *;
    OkParts(y, place);
    var i := ActiveCall(y, place);
    ViewIs(y);
    StoredIs(View(y));
    ComputeIs(y, i);
    BufferTheorems.CountExact(View(y), i);
    StoredAtMost(View(y));
  }

  lemma ComputeIs(y: System, i: nat)
    requires MayMove(y, NextStep) && Doing(y) == Compute && i == Active(y)
    ensures i < |Next(y, NextStep).tasks| && Next(y, NextStep).tasks[i].val == CountOf(|y.buf|, y.head, y.tail)
  {
  }

  lemma StoredAtMost(b: BState)
    requires Inv(b)
    ensures 0 <= BufferTheorems.Stored(b) <= b.cap
  {
    assert ContentsOk(b);
  }
}
