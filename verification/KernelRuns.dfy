// What the thread kernel promises over whole runs of traps.
module KernelRuns {
  import opened Sequences
  import opened SleepList
  import opened SemaphoreSpec
  import opened KernelSpec
  import opened KernelPlaces
  import opened KernelSteps

  // ----- every thread at exactly one place

  lemma CloseSound(k: KState, place: Places, s: nat) returns (place': Places)
    requires Sound(k, place) && s in k.sems
    ensures Sound(Close(k, s), place') && DoneStay(place, place')
  {
    hide Sound, Signals, Placed;
    var n := if k.sems[s].val <= 0 then 1 - k.sems[s].val else 0;
    var k1 := Signals(k, s, n);
    place' := SignalsSound(k, place, s, n);
    SignalsValue(k, s, n);
    NoWaiters(k1, place', s);
    SoundParts(k1, place');
    SemsPlaced(k1, place', Close(k, s));
    FewerSems(k1, s);
    MakeSound(Close(k, s), place');
  }

  lemma {:induction false} SignalsValue(k: KState, s: nat, n: nat)
    requires s in k.sems
    ensures Signals(k, s, n).sems[s].val == k.sems[s].val + n
    decreases n
  {
    if n > 0 {
      SignalValue(k, s);
      SignalsValue(Signal(k, s), s, n - 1);
    }
  }

  lemma SignalValue(k: KState, s: nat)
    requires s in k.sems
    ensures s in Signal(k, s).sems && Signal(k, s).sems[s].val == k.sems[s].val + 1
  {
  }

  lemma NoWaiters(k: KState, place: Places, s: nat)
    requires Sound(k, place) && s in k.sems && k.sems[s].val >= 0
    ensures k.sems[s].queue == []
  {
  }

  lemma FewerSems(k: KState, s: nat)
    requires SemsOk(k)
    ensures SemsOk(k.(sems := k.sems - {s}))
  {
  }

  lemma OpenSound(k: KState, place: Places, s: nat, init: nat)
    requires Sound(k, place) && s !in k.sems
    ensures Sound(k.(sems := k.sems[s := Sem(init, [])]), place)
  {
    hide Placed;
    SemsPlaced(k, place, k.(sems := k.sems[s := Sem(init, [])]));
  }

  lemma StepSound(k: KState, place: Places, op: Trap) returns (place': Places)
    requires Sound(k, place) && Allowed(k, op)
    ensures Sound(Step(k, op), place') && DoneStay(place, place')
  {
    hide Sound, DoneStay, Wait, Signal, Sleep, Tick, Close, Leave, NewThread, StartThread, SetFinished;
    var place1 := place;
    match op
    case Create(t, slice, start) =>
      place1 := CreateSound(k, place, t, slice, start);
      place' := LeaveSound(NewThread(k, t, slice, start), place1);
      DoneThen(place, place1, place');
    case Start(t) =>
      place1 := StartSound(k, place, t);
      place' := LeaveSound(StartThread(k, t), place1);
      DoneThen(place, place1, place');
    case Exit =>
      ExitSound(k, place);
      place' := LeaveSound(SetFinished(k, k.running), place);
    case Yield =>
      place' := LeaveSound(k, place);
    case Open(s, init) =>
      OpenSound(k, place, s, init);
      place' := LeaveSound(k.(sems := k.sems[s := Sem(init, [])]), place);
    case CloseSem(s) =>
      place1 := CloseSound(k, place, s);
      place' := LeaveSound(Close(k, s), place1);
      DoneThen(place, place1, place');
    case WaitSem(s) =>
      place' := WaitSound(k, place, s);
    case SignalSem(s) =>
      place' := SignalSound(k, place, s);
    case SleepFor(ticks) =>
      place' := SleepSound(k, place, ticks);
    case Timer =>
      place' := TickSound(k, place);
  }

  lemma DoneSelf(place: Places)
    ensures DoneStay(place, place)
  {
  }

  lemma {:induction false} RunSound(k: KState, place: Places, ops: seq<Trap>, t: KState) returns (place': Places)
    requires Sound(k, place) && Run(k, ops, t)
    ensures Sound(t, place') && DoneStay(place, place')
    decreases |ops|
  {
    hide Sound, DoneStay, Allowed, Step;
    place' := place;
    DoneSelf(place);
    if ops != [] {
      var place1 := StepSound(k, place, ops[0]);
      place' := RunSound(Step(k, ops[0]), place1, ops[1..], t);
      DoneThen(place, place1, place');
    }
  }

  // The state in which the first thread starts to run: it and the idle thread exist.
  function Boot(idle: nat, first: nat, slice: nat): (k: KState)
    requires idle != first
  {
    KState(idle, map[idle := Thread(false, false, false, slice), first := Thread(false, false, false, slice)], {}, [],
      map[], [], first, 0)
  }

  lemma BootSound(idle: nat, first: nat, slice: nat)
    requires idle != first
    ensures Sound(Boot(idle, first, slice), map[first := Running])
  {
    var k, place: Places := Boot(idle, first, slice), map[first := Running];
    assert UnstartedOk(k, place) && ReadyOk(k, place) && RunningOk(k, place) && NapsOk(k, place) && FlagsOk(k, place);
    assert QueuesOk(k, place);
  }

  // Thread t is at place p, read off the queues and flags.
  ghost predicate IsAt(k: KState, t: nat, p: Place) {
    match p
    case Unstarted => t in k.unstarted
    case Ready => t in k.ready
    case Running => t == k.running
    case Waiting(s) => s in k.sems && t in k.sems[s].queue
    case Sleeping => t in Ids(k.naps)
    case Done => t in k.threads && k.threads[t].finished && t != k.running
  }

  lemma AtPlace(k: KState, place: Places, t: nat, p: Place)
    requires Placed(k, place) && t != k.idle && t in k.threads
    ensures t in place && (IsAt(k, t, p) <==> place[t] == p)
  {
    PlacedParts(k, place);
    assert t in place;
    assert In(place, t, Running) <==> t == k.running;
    match p
    case Waiting(s) => assert s in k.sems ==> (t in k.sems[s].queue <==> In(place, t, Waiting(s)));
      assert In(place, t, Waiting(s)) ==> s in k.sems;
    case _ =>
  }

  // In every state a run can reach, every thread but the idle one is at exactly one place, on its queue
  // once, and its flags say so.
  lemma Partition(idle: nat, first: nat, slice: nat, ops: seq<Trap>, k: KState, t: nat) returns (p: Place)
    requires idle != first && Run(Boot(idle, first, slice), ops, k) && t in k.threads && t != k.idle
    ensures IsAt(k, t, p) && forall q :: IsAt(k, t, q) ==> q == p
    ensures k.threads[t].blocked <==> p.Waiting?
    ensures k.threads[t].sleeping <==> p == Sleeping
    ensures k.threads[t].finished ==> p == Done || p == Running
    ensures NoDup(k.ready) && NoDup(Ids(k.naps)) && forall s :: s in k.sems ==> NoDup(k.sems[s].queue)
  {
    BootSound(idle, first, slice);
    var place := RunSound(Boot(idle, first, slice), map[first := Running], ops, k);
    hide Run, Boot;
    PlacedParts(k, place);
    AtPlace(k, place, t, Ready);
    p := place[t];
    forall q
      ensures IsAt(k, t, q) <==> q == p
    {
      AtPlace(k, place, t, q);
    }
  }

  // A finished thread that was switched out never runs again.
  lemma FinishedForever(k: KState, place: Places, ops: seq<Trap>, k': KState, t: nat)
    requires Sound(k, place) && Run(k, ops, k') && IsAt(k, t, Done) && t != k.idle
    ensures IsAt(k', t, Done) && t != k'.running
  {
    var place' := RunSound(k, place, ops, k');
    hide Run;
    AtPlace(k, place, t, Done);
    assert In(place, t, Done);
    assert In(place', t, Done);
    PlacedParts(k', place');
    assert !In(place', t, Running);
  }

  // An exiting thread is switched out exactly when somebody is ready; otherwise it runs on, finished.
  lemma ExitSwitches(k: KState, place: Places)
    requires Sound(k, place) && Allowed(k, Exit)
    ensures Step(k, Exit).running != k.running <==> k.ready != []
    ensures k.running in Step(k, Exit).threads && Step(k, Exit).threads[k.running].finished
    ensures k.ready != [] ==> IsAt(Step(k, Exit), k.running, Done)
  {
    RunningAt(k, place);
    if k.ready != [] {
      PlacedParts(k, place);
      assert k.ready[0] in k.ready;
      assert In(place, k.ready[0], Ready) && In(place, k.running, Running);
    }
  }

  // ----- semaphores

  function Count(ops: seq<Trap>, op: Trap): nat {
    if ops == [] then 0 else (if ops[0] == op then 1 else 0) + Count(ops[1..], op)
  }

  // Dispatching and waking others leaves semaphores alone.
  lemma LeaveSems(k: KState)
    ensures Leave(k).sems == k.sems && Dispatch(k).sems == k.sems
  {
  }

  lemma {:induction false} WakeSems(k: KState)
    ensures WakeDue(k).sems == k.sems
    decreases |k.naps|
  {
    if k.naps != [] && k.naps[0].left == 0 {
      WakeSems(WakeFirst(k));
    }
  }

  lemma TickSems(k: KState)
    ensures Tick(k).sems == k.sems
  {
    hide WakeDue, Ticked, Dispatch;
    WakeSems(k.(naps := Ticked(k.naps), counter := k.counter + 1));
    var k1 := AfterWake(k);
    assert k1.sems == k.sems;
    LeaveSems(k1.(counter := 0));
    TickIs(k);
  }

  // The threads that block on s in a step, and the number of those it releases.
  function Joining(k: KState, op: Trap, s: nat): seq<nat> {
    if op == WaitSem(s) && s in k.sems && k.sems[s].val <= 0 then [k.running] else []
  }

  function Leaving(k: KState, op: Trap, s: nat): nat {
    if op == SignalSem(s) && s in k.sems && k.sems[s].val < 0 then 1 else 0
  }

  // Only waits, signals and closes of s concern s.
  lemma OtherSteps(k: KState, op: Trap, s: nat)
    requires Allowed(k, op) && s in k.sems && op != CloseSem(s) && op != WaitSem(s) && op != SignalSem(s)
    ensures s in Step(k, op).sems && Step(k, op).sems[s] == k.sems[s]
  {
    hide Dispatch, Tick, Leave;
    match op
    case CloseSem(r) =>
      CloseOther(k, r, s);
      LeaveSems(Close(k, r));
    case WaitSem(r) =>
      WaitIs(k, r);
    case SignalSem(r) =>
    case SleepFor(ticks) =>
      if ticks > 0 {
        LeaveSems(SetSleeping(k.(naps := Insert(k.naps, k.running, ticks)), k.running, true));
      }
    case Timer =>
      TickSems(k);
    case Create(t, slice, start) =>
      LeaveSems(NewThread(k, t, slice, start));
    case Start(t) =>
      LeaveSems(StartThread(k, t));
    case Exit =>
      LeaveSems(SetFinished(k, k.running));
    case Yield =>
      LeaveSems(k);
    case Open(r, init) =>
      LeaveSems(k.(sems := k.sems[r := Sem(init, [])]));
  }

  // One step of the semaphore s: its value counts signals and waits, its queue is first in, first out.
  lemma SemStep(k: KState, place: Places, op: Trap, s: nat)
    requires Sound(k, place) && Allowed(k, op) && s in k.sems && op != CloseSem(s)
    ensures var k' := Step(k, op);
            && s in k'.sems
            && k'.sems[s].val == k.sems[s].val +
               (if op == SignalSem(s) then 1 else 0) - (if op == WaitSem(s) then 1 else 0)
            && Leaving(k, op, s) <= |k.sems[s].queue|
            && k'.sems[s].queue == k.sems[s].queue[Leaving(k, op, s)..] + Joining(k, op, s)
  {
    SemsCount(k, place, s);
    hide Sound, Allowed, Dispatch, Tick, Leave, Close, Sleep, NewThread, StartThread, SetFinished, CanRun;
    if op == WaitSem(s) {
      WaitIs(k, s);
    } else if op != SignalSem(s) {
      OtherSteps(k, op, s);
    }
  }

  lemma WaitIs(k: KState, s: nat)
    requires s in k.sems
    ensures Wait(k, s).sems == k.sems[s := Sem(k.sems[s].val - 1,
                                              if k.sems[s].val <= 0 then k.sems[s].queue + [k.running]
                                              else k.sems[s].queue)]
  {
  }

  lemma {:induction false} SignalsOther(k: KState, r: nat, s: nat, n: nat)
    requires r in k.sems && s in k.sems && r != s
    ensures s in Signals(k, r, n).sems && Signals(k, r, n).sems[s] == k.sems[s]
    decreases n
  {
    if n > 0 {
      SignalsOther(Signal(k, r), r, s, n - 1);
    }
  }

  lemma CloseOther(k: KState, r: nat, s: nat)
    requires r in k.sems && s in k.sems && r != s
    ensures s in Close(k, r).sems && Close(k, r).sems[s] == k.sems[s]
  {
    hide Signals;
    SignalsOther(k, r, s, if k.sems[r].val <= 0 then 1 - k.sems[r].val else 0);
  }

  // The threads that blocked on s during a run, in order, and how many waiters the run released.
  ghost function Joined(k: KState, ops: seq<Trap>, s: nat): seq<nat>
    decreases |ops|
  {
    if ops == [] || !Allowed(k, ops[0]) then []
    else Joining(k, ops[0], s) + Joined(Step(k, ops[0]), ops[1..], s)
  }

  ghost function Released(k: KState, ops: seq<Trap>, s: nat): nat
    decreases |ops|
  {
    if ops == [] || !Allowed(k, ops[0]) then 0
    else Leaving(k, ops[0], s) + Released(Step(k, ops[0]), ops[1..], s)
  }

  // Over any run in which s stays open, its value counts the signals and waits.
  lemma {:induction false} ValueAccount(k: KState, place: Places, ops: seq<Trap>, k': KState, s: nat)
    requires Sound(k, place) && Run(k, ops, k') && s in k.sems && CloseSem(s) !in ops
    ensures s in k'.sems
    ensures k'.sems[s].val == k.sems[s].val + Count(ops, SignalSem(s)) - Count(ops, WaitSem(s))
    decreases |ops|
  {
    RunCut(k, ops, k');
    hide *;
    HistoryCut(k, ops, s);
    if ops != [] {
      SemStep(k, place, ops[0], s);
      var place1 := StepSound(k, place, ops[0]);
      assert ops[0] in ops && forall op :: op in ops[1..] ==> op in ops;
      ValueAccount(Step(k, ops[0]), place1, ops[1..], k', s);
    }
  }

  // Over such a run its waiters are served in the order they came.
  lemma {:induction false} QueueAccount(k: KState, place: Places, ops: seq<Trap>, k': KState, s: nat)
    requires Sound(k, place) && Run(k, ops, k') && s in k.sems && s in k'.sems && CloseSem(s) !in ops
    ensures Served(k.sems[s].queue, Joined(k, ops, s), Released(k, ops, s), k'.sems[s].queue)
    decreases |ops|
  {
    RunCut(k, ops, k');
    hide *;
    HistoryCut(k, ops, s);
    if ops == [] {
      NoneServed(k.sems[s].queue);
    } else {
      SemStep(k, place, ops[0], s);
      var place1 := StepSound(k, place, ops[0]);
      assert ops[0] in ops && forall op :: op in ops[1..] ==> op in ops;
      QueueAccount(Step(k, ops[0]), place1, ops[1..], k', s);
      ServedThen(k.sems[s].queue, Joining(k, ops[0], s), Leaving(k, ops[0], s),
                 Joined(Step(k, ops[0]), ops[1..], s), Released(Step(k, ops[0]), ops[1..], s), k'.sems[s].queue);
    }
  }

  // The queue q, with j behind it, became r after the first n left.
  ghost predicate Served(q: seq<nat>, j: seq<nat>, n: nat, r: seq<nat>) {
    n <= |q + j| && r == (q + j)[n..]
  }

  lemma NoneServed(q: seq<nat>)
    ensures Served(q, [], 0, q)
  {
    assert q + [] == q;
  }

  lemma ServedThen(q: seq<nat>, j: seq<nat>, n: nat, js: seq<nat>, m: nat, r: seq<nat>)
    requires n <= |q| && Served(q[n..] + j, js, m, r)
    ensures Served(q, j + js, n + m, r)
  {
    assert q[n..] + j + js == (q + (j + js))[n..];
    assert (q + (j + js))[n..][m..] == (q + (j + js))[n + m..];
  }

  // Over any run in which s stays open: its value counts the signals and waits, the waiters are as many as
  // it is below zero, and they were served in the order they came.
  lemma SemaphoreAccount(k: KState, place: Places, ops: seq<Trap>, k': KState, s: nat)
    requires Sound(k, place) && Run(k, ops, k') && s in k.sems && CloseSem(s) !in ops
    ensures s in k'.sems
    ensures k'.sems[s].val == k.sems[s].val + Count(ops, SignalSem(s)) - Count(ops, WaitSem(s))
    ensures |k'.sems[s].queue| == if k'.sems[s].val < 0 then -k'.sems[s].val else 0
    ensures Released(k, ops, s) <= |k.sems[s].queue + Joined(k, ops, s)|
    ensures k'.sems[s].queue == (k.sems[s].queue + Joined(k, ops, s))[Released(k, ops, s)..]
  {
    ValueAccount(k, place, ops, k', s);
    QueueAccount(k, place, ops, k', s);
    hide Sound, Run, Joined, Released, Count;
    var place' := RunSound(k, place, ops, k');
    SemsCount(k', place', s);
  }

  lemma SemsCount(k: KState, place: Places, s: nat)
    requires Sound(k, place) && s in k.sems
    ensures |k.sems[s].queue| == if k.sems[s].val < 0 then -k.sems[s].val else 0
  {
    assert SemsOk(k);
  }

  lemma RunCut(k: KState, ops: seq<Trap>, k': KState)
    requires Run(k, ops, k')
    ensures ops == [] ==> k' == k
    ensures ops != [] ==> Allowed(k, ops[0]) && Run(Step(k, ops[0]), ops[1..], k')
  {
  }

  lemma HistoryCut(k: KState, ops: seq<Trap>, s: nat)
    requires ops != [] ==> Allowed(k, ops[0])
    ensures ops == [] ==> Joined(k, ops, s) == [] && Released(k, ops, s) == 0 && forall op :: Count(ops, op) == 0
    ensures ops != [] ==> Joined(k, ops, s) == Joining(k, ops[0], s) + Joined(Step(k, ops[0]), ops[1..], s)
    ensures ops != [] ==> Released(k, ops, s) == Leaving(k, ops[0], s) + Released(Step(k, ops[0]), ops[1..], s)
    ensures ops != [] ==> forall op :: Count(ops, op) == (if ops[0] == op then 1 else 0) + Count(ops[1..], op)
  {
  }

  // ----- closing a semaphore

  // The threads of q are not blocked any more, the others are as they were.
  ghost predicate Unblocked(f: map<nat, Thread>, g: map<nat, Thread>, q: seq<nat>) {
    f.Keys == g.Keys && forall t :: t in f ==> g[t] == if t in q then f[t].(blocked := false) else f[t]
  }

  // The threads of q, formerly waiting for s, became ready in this order; only s and they changed.
  ghost predicate Woken(k: KState, k': KState, s: nat, q: seq<nat>) {
    && k'.ready == k.ready + q && Unblocked(k.threads, k'.threads, q) && k'.sems - {s} == k.sems - {s}
    && k' == k.(sems := k'.sems, ready := k'.ready, threads := k'.threads)
  }

  lemma WokenThen(k: KState, k1: KState, k2: KState, s: nat, q: seq<nat>)
    requires q != [] && Woken(k, k1, s, [q[0]]) && Woken(k1, k2, s, q[1..])
    ensures Woken(k, k2, s, q)
  {
    hide Unblocked;
    UnblockedThen(k.threads, k1.threads, k2.threads, q[0], q[1..]);
    assert q == [q[0]] + q[1..];
    assert k.ready + [q[0]] + q[1..] == k.ready + q;
  }

  lemma NobodyWoken(k: KState, s: nat)
    ensures Woken(k, k, s, [])
  {
    assert k.ready + [] == k.ready;
  }

  lemma SignalIs(k: KState, place: Places, s: nat)
    requires Sound(k, place) && s in k.sems && k.sems[s].val < 0
    ensures var q, k' := k.sems[s].queue, Signal(k, s);
            && q != [] && s in k'.sems && k'.sems[s].queue == q[1..] && Woken(k, k', s, [q[0]])
  {
    assert Placed(k, place) && SemsOk(k);
    FirstWaiter(k, place, s);
  }

  lemma UnblockedThen(f: map<nat, Thread>, g: map<nat, Thread>, h: map<nat, Thread>, t: nat, q: seq<nat>)
    requires Unblocked(f, g, [t]) && Unblocked(g, h, q)
    ensures Unblocked(f, h, [t] + q)
  {
    assert forall x: nat :: x in [t] + q <==> x in [t] || x in q;
  }

  // As many signals as there are waiters ready them all in order.
  lemma {:induction false} SignalsWake(k: KState, place: Places, s: nat, n: nat)
    requires Sound(k, place) && s in k.sems && k.sems[s].val + n == 0
    ensures Signals(k, s, n).sems[s] == Sem(0, []) && Woken(k, Signals(k, s, n), s, k.sems[s].queue)
    decreases n
  {
    hide *;
    SemsCount(k, place, s);
    var q := k.sems[s].queue;
    SignalsCut(k, s, n);
    if n == 0 {
      NobodyWoken(k, s);
      SemIs(k.sems[s]);
    } else {
      SignalIs(k, place, s);
      SignalValue(k, s);
      var place1 := SignalSound(k, place, s);
      var k1 := Signal(k, s);
      SignalsWake(k1, place1, s, n - 1);
      WokenThen(k, k1, Signals(k, s, n), s, q);
    }
  }

  lemma SignalsCut(k: KState, s: nat, n: nat)
    requires s in k.sems
    ensures n == 0 ==> Signals(k, s, n) == k
    ensures n > 0 ==> s in Signal(k, s).sems && Signals(k, s, n) == Signals(Signal(k, s), s, n - 1)
  {
  }

  lemma SemIs(m: Sem)
    ensures m == Sem(m.val, m.queue)
  {
  }

  lemma NobodyUnblocked(f: map<nat, Thread>)
    ensures Unblocked(f, f, [])
  {
  }

  lemma {:induction false} OneSignalMore(k: KState, s: nat, n: nat)
    requires s in k.sems
    ensures Signals(k, s, n + 1) == Signal(Signals(k, s, n), s)
    decreases n
  {
    if n > 0 {
      OneSignalMore(Signal(k, s), s, n - 1);
    }
  }

  // Closing a semaphore readies all its waiters, first in first, and touches nobody else.
  lemma CloseWakesAll(k: KState, place: Places, s: nat)
    requires Sound(k, place) && s in k.sems
    ensures var q, k' := k.sems[s].queue, Close(k, s);
            && k'.ready == k.ready + q && Unblocked(k.threads, k'.threads, q)
            && k' == k.(sems := k.sems - {s}, ready := k'.ready, threads := k'.threads)
  {
    assert SemsOk(k);
    hide Sound, Unblocked, Placed, Signals, Signal;
    var v := k.sems[s].val;
    if v <= 0 {
      SignalsWake(k, place, s, -v);
      OneSignalMore(k, s, -v);
      LastSignal(Signals(k, s, -v), s);
    } else {
      NoSignal(k, s);
      NobodyUnblocked(k.threads);
      assert k.ready + [] == k.ready;
    }
  }

  lemma LastSignal(k: KState, s: nat)
    requires s in k.sems && k.sems[s] == Sem(0, [])
    ensures Signal(k, s) == k.(sems := k.sems[s := Sem(1, [])]) && Signal(k, s).sems - {s} == k.sems - {s}
  {
  }

  lemma NoSignal(k: KState, s: nat)
    requires s in k.sems
    ensures Signals(k, s, 0) == k
  {
  }

  // ----- exact wake-up

  function Ticks(ops: seq<Trap>): nat {
    Count(ops, Timer)
  }

  lemma GetNaps(k: KState)
    ensures Dispatch(k).naps == k.naps && Leave(k).naps == k.naps
  {
  }

  lemma {:induction false} SignalsNaps(k: KState, s: nat, n: nat)
    requires s in k.sems
    ensures Signals(k, s, n).naps == k.naps
    decreases n
  {
    if n > 0 {
      SignalsNaps(Signal(k, s), s, n - 1);
    }
  }

  // A sleeper's remaining ticks change with the timer only, whatever else goes on.
  lemma NapStep(k: KState, place: Places, op: Trap, t: nat)
    requires Sound(k, place) && Allowed(k, op) && t in Ids(k.naps)
    requires op != Timer
    ensures t in Ids(Step(k, op).naps) && Left(Step(k, op).naps, t) == Left(k.naps, t)
  {
    RunningAt(k, place);
    NotNapping(k, place);
    hide Sound, Dispatch, Leave, Signals, Insert, Left;
    match op
    case CloseSem(r) =>
      SignalsNaps(k, r, if k.sems[r].val <= 0 then 1 - k.sems[r].val else 0);
      GetNaps(Close(k, r));
    case WaitSem(r) =>
      WaitNaps(k, r);
    case SignalSem(r) =>
    case SleepFor(ticks) =>
      SleepNaps(k, ticks);
      if ticks > 0 {
        InsertIds(k.naps, k.running, ticks);
        InsertLeft(k.naps, k.running, ticks, t);
      }
    case Create(x, slice, start) =>
      GetNaps(NewThread(k, x, slice, start));
    case Start(x) =>
      GetNaps(StartThread(k, x));
    case Exit =>
      GetNaps(SetFinished(k, k.running));
    case Yield =>
      GetNaps(k);
    case Open(r, init) =>
      GetNaps(k.(sems := k.sems[r := Sem(init, [])]));
  }

  lemma NotNapping(k: KState, place: Places)
    requires Sound(k, place)
    ensures k.running !in Ids(k.naps)
  {
    assert In(place, k.running, Running) <==> k.running != k.idle;
    assert k.running in Ids(k.naps) ==> In(place, k.running, Sleeping);
  }

  lemma WaitNaps(k: KState, s: nat)
    requires s in k.sems
    ensures Wait(k, s).naps == k.naps
  {
  }

  lemma SleepNaps(k: KState, ticks: nat)
    ensures Sleep(k, ticks).naps == if ticks == 0 then k.naps else Insert(k.naps, k.running, ticks)
  {
  }

  // A thread that goes to sleep for some ticks has just these left, and does not run.
  lemma SleepStarts(k: KState, place: Places, ticks: nat)
    requires Sound(k, place) && Allowed(k, SleepFor(ticks)) && ticks > 0
    ensures var k' := Step(k, SleepFor(ticks)); k.running in Ids(k'.naps) && Left(k'.naps, k.running) == ticks
  {
    NotNapping(k, place);
    SleepNaps(k, ticks);
    InsertIds(k.naps, k.running, ticks);
    InsertLeft(k.naps, k.running, ticks, k.running);
  }

  // A tick takes one off; the last one makes the thread ready, and the same tick may already run it.
  lemma NapTick(k: KState, place: Places, t: nat)
    requires Sound(k, place) && t in Ids(k.naps)
    ensures var k' := Step(k, Timer);
            && Left(k.naps, t) > 0
            && (Left(k.naps, t) > 1 ==> t in Ids(k'.naps) && Left(k'.naps, t) == Left(k.naps, t) - 1)
            && (Left(k.naps, t) == 1 ==> t !in Ids(k'.naps) && (t in k'.ready || t == k'.running))
  {
    SoundParts(k, place);
    assert NapsOk(k, place);
    hide *;
    LeftPositive(k.naps, t);
    TickOne(k.naps, t);
    var k1 := AfterWake(k);
    TickedPlaced(k, place);
    var place1 := WakePlaced(k.(naps := Ticked(k.naps), counter := k.counter + 1), place);
    AfterWakeIs(k);
    TickIs(k);
    StepIsTick(k);
    GetNaps(k1.(counter := 0));
    if t in k1.ready {
      StaysAround(k1.(counter := 0), t);
    }
  }

  lemma StepIsTick(k: KState)
    ensures Allowed(k, Timer) && Step(k, Timer) == Tick(k)
  {
  }

  lemma AfterWakeIs(k: KState)
    ensures AfterWake(k) == WakeDue(k.(naps := Ticked(k.naps), counter := k.counter + 1))
  {
  }

  // A ready thread stays ready or comes to run.
  lemma StaysAround(k: KState, t: nat)
    requires t in k.ready
    ensures t in Dispatch(k).ready || t == Dispatch(k).running
  {
    var k1 := if CanRun(k, k.running) then Put(k, k.running) else k;
    assert t in k1.ready;
    assert k1.ready == [k1.ready[0]] + k1.ready[1..];
  }

  // A thread with r ticks left sleeps through any run with fewer ticks and is woken by exactly the r-th.
  lemma {:induction false} WokenExactly(k: KState, place: Places, ops: seq<Trap>, k': KState, t: nat)
    requires Sound(k, place) && Run(k, ops, k') && t in Ids(k.naps)
    ensures Ticks(ops) < Left(k.naps, t) ==> t in Ids(k'.naps) && Left(k'.naps, t) == Left(k.naps, t) - Ticks(ops)
    ensures ops != [] && ops[|ops| - 1] == Timer && Ticks(ops) == Left(k.naps, t) ==>
              t !in Ids(k'.naps) && (t in k'.ready || t == k'.running)
    decreases |ops|
  {
    hide Sound, Step, Allowed, Left;
    if ops != [] {
      var k1 := Step(k, ops[0]);
      var place1 := StepSound(k, place, ops[0]);
      if ops[0] == Timer {
        NapTick(k, place, t);
        if Left(k.naps, t) > 1 {
          WokenExactly(k1, place1, ops[1..], k', t);
        } else if |ops| > 1 {
          LastCounts(ops[1..]);
        }
      } else {
        NapStep(k, place, ops[0], t);
        WokenExactly(k1, place1, ops[1..], k', t);
      }
    } else {
      LeftAtStart(k, place, t);
    }
  }

  lemma LeftAtStart(k: KState, place: Places, t: nat)
    requires Sound(k, place) && t in Ids(k.naps)
    ensures Left(k.naps, t) > 0
  {
    LeftPositive(k.naps, t);
  }

  lemma {:induction false} LastCounts(ops: seq<Trap>)
    requires ops != []
    ensures ops[|ops| - 1] == Timer ==> Ticks(ops) >= 1
  {
    if |ops| > 1 {
      LastCounts(ops[1..]);
    }
  }

  // ----- round robin

  // Whether a step takes a thread off the ready queue (or finds it empty), and the threads it appends.
  function Gets(k: KState, op: Trap): nat
    requires Allowed(k, op)
  {
    match op
    case WaitSem(s) => if k.sems[s].val <= 0 then 1 else 0
    case SignalSem(_) => 0
    case SleepFor(ticks) => if ticks > 0 then 1 else 0
    case Timer =>
      var k1 := AfterWake(k);
      if k1.counter >= Slice(k1) && k1.ready != [] then 1 else 0
    case Create(t, slice, start) => if NewThread(k, t, slice, start).ready != [] then 1 else 0
    case Start(t) => if StartThread(k, t).ready != [] then 1 else 0
    case Exit => if k.ready != [] then 1 else 0
    case Yield => if k.ready != [] then 1 else 0
    case Open(_, _) => if k.ready != [] then 1 else 0
    case CloseSem(s) => if Close(k, s).ready != [] then 1 else 0
  }

  // k' has the ready queue of k with more threads behind it, of which g were taken off the front; a thread
  // taken off runs.
  ghost predicate Advanced(k: KState, k': KState, g: nat) {
    g <= 1 && exists more: seq<nat> ::
      if g == 0 then k'.ready == k.ready + more
      else if k.ready + more == [] then k'.ready == []
      else k'.running == (k.ready + more)[0] && k'.ready == (k.ready + more)[1..]
  }

  lemma DispatchAdvances(k: KState, q: seq<nat>, more: seq<nat>, k0: KState)
    requires k.ready == q + more && k0.ready == q
    ensures Advanced(k0, Dispatch(k), 1)
  {
    var k1 := if CanRun(k, k.running) then Put(k, k.running) else k;
    var all := if k1.ready == k.ready then more else more + [k.running];
    assert k1.ready == q + all;
    assert Dispatch(k) == Get(k1);
  }

  lemma LeaveAdvances(k: KState, more: seq<nat>, k0: KState)
    requires k.ready == k0.ready + more
    ensures Advanced(k0, Leave(k), if k.ready != [] then 1 else 0)
  {
    if k.ready != [] {
      DispatchAdvances(k.(counter := 0), k0.ready, more, k0);
    } else {
      assert Leave(k).ready == k0.ready + more;
    }
  }

  lemma StepAdvances(k: KState, place: Places, op: Trap)
    requires Sound(k, place) && Allowed(k, op)
    ensures Advanced(k, Step(k, op), Gets(k, op))
  {
    RunningAt(k, place);
    var none: seq<nat> := [];
    assert k.ready == k.ready + none;
    match op
    case CloseSem(s) =>
      CloseWakesAll(k, place, s);
      hide Sound, Advanced, Dispatch, Leave, Close;
      LeaveAdvances(Close(k, s), k.sems[s].queue, k);
    case WaitSem(s) =>
      WaitAdvances(k, s);
    case SignalSem(s) =>
      if k.sems[s].val < 0 {
        SignalIs(k, place, s);
      } else {
        assert Signal(k, s).ready == k.ready + none;
      }
    case SleepFor(ticks) =>
      if ticks > 0 {
        DispatchAdvances(SetSleeping(k.(naps := Insert(k.naps, k.running, ticks)), k.running, true), k.ready, none, k);
      } else {
        assert Sleep(k, ticks).ready == k.ready + none;
      }
    case Timer =>
      TickAdvances(k, place);
    case Create(t, slice, start) =>
      hide Sound, Advanced, Dispatch, Leave;
      LeaveAdvances(NewThread(k, t, slice, start), if start && t != k.idle then [t] else none, k);
    case Start(t) =>
      hide Sound, Advanced, Dispatch, Leave;
      LeaveAdvances(StartThread(k, t), if t != k.idle then [t] else none, k);
    case Exit =>
      hide Sound, Advanced, Dispatch, Leave;
      LeaveAdvances(SetFinished(k, k.running), none, k);
    case Yield =>
      hide Sound, Advanced, Dispatch, Leave;
      LeaveAdvances(k, none, k);
    case Open(s, init) =>
      hide Sound, Advanced, Dispatch, Leave;
      LeaveAdvances(k.(sems := k.sems[s := Sem(init, [])]), none, k);
  }

  lemma WaitAdvances(k: KState, s: nat)
    requires s in k.sems
    ensures Advanced(k, Wait(k, s), if k.sems[s].val <= 0 then 1 else 0)
  {
    var none: seq<nat> := [];
    assert k.ready == k.ready + none;
    var k1 := k.(sems := k.sems[s := k.sems[s].(val := k.sems[s].val - 1)]);
    if k1.sems[s].val < 0 {
      DispatchAdvances(SetBlocked(k1.(sems := k1.sems[s := k1.sems[s].(queue := k1.sems[s].queue + [k.running])]),
        k.running, true), k.ready, none, k);
    } else {
      assert Wait(k, s).ready == k.ready + none;
    }
  }

  lemma TickAdvances(k: KState, place: Places)
    requires Sound(k, place)
    ensures var k1 := AfterWake(k);
            Advanced(k, Tick(k), if k1.counter >= Slice(k1) && k1.ready != [] then 1 else 0)
  {
    SoundParts(k, place);
    hide Sound, Placed, WakeDue, Dispatch, Advanced;
    TickedPlaced(k, place);
    var place1 := WakePlaced(k.(naps := Ticked(k.naps), counter := k.counter + 1), place);
    var k1 := AfterWake(k);
    TickIs(k);
    var woken := Due(Ticked(k.naps)).0;
    if k1.counter >= Slice(k1) && k1.ready != [] {
      DispatchAdvances(k1.(counter := 0), k.ready, woken, k);
    } else {
      AppendedOnly(k, Tick(k), woken);
    }
  }

  lemma AppendedOnly(k: KState, k': KState, more: seq<nat>)
    requires k'.ready == k.ready + more
    ensures Advanced(k, k', 0)
  {
  }

  ghost function GetsOf(k: KState, ops: seq<Trap>): nat
    decreases |ops|
  {
    if ops == [] || !Allowed(k, ops[0]) then 0
    else Gets(k, ops[0]) + GetsOf(Step(k, ops[0]), ops[1..])
  }

  // The thread at position p of the ready queue is what exactly the (p + 1)-th later get returns, whoever
  // else is put there meanwhile.
  lemma {:induction false} RoundRobin(k: KState, place: Places, ops: seq<Trap>, k': KState, p: nat)
    requires Sound(k, place) && Run(k, ops, k') && p < |k.ready|
    ensures GetsOf(k, ops) <= p ==> p - GetsOf(k, ops) < |k'.ready| && k'.ready[p - GetsOf(k, ops)] == k.ready[p]
    ensures GetsOf(k, ops) == p + 1 && LastGets(k, ops) ==> k'.running == k.ready[p]
    decreases |ops|
  {
    hide Sound, Step, Allowed, Gets;
    if ops != [] {
      var k1, g := Step(k, ops[0]), Gets(k, ops[0]);
      StepAdvances(k, place, ops[0]);
      AdvancedAt(k, k1, g, p);
      var place1 := StepSound(k, place, ops[0]);
      if g <= p {
        RoundRobin(k1, place1, ops[1..], k', p - g);
      } else if |ops| > 1 {
        LastGetsCounts(k1, ops[1..]);
      }
    }
  }

  lemma AdvancedAt(k: KState, k': KState, g: nat, p: nat)
    requires Advanced(k, k', g) && p < |k.ready|
    ensures g <= 1 && (g <= p ==> p - g < |k'.ready| && k'.ready[p - g] == k.ready[p])
    ensures g == 1 && p == 0 ==> k'.running == k.ready[0]
  {
  }

  // The last step of the run takes a thread off the ready queue.
  ghost predicate LastGets(k: KState, ops: seq<Trap>)
    decreases |ops|
  {
    ops != [] && Allowed(k, ops[0]) &&
    if |ops| == 1 then Gets(k, ops[0]) == 1 else LastGets(Step(k, ops[0]), ops[1..])
  }

  lemma {:induction false} LastGetsCounts(k: KState, ops: seq<Trap>)
    requires ops != []
    ensures LastGets(k, ops) ==> GetsOf(k, ops) >= 1
    decreases |ops|
  {
    if |ops| > 1 && Allowed(k, ops[0]) {
      LastGetsCounts(Step(k, ops[0]), ops[1..]);
    }
  }
}
