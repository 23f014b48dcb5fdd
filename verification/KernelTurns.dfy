// Whose turn it is: whom each trap lets run, how long the timer leaves a thread running, and when a created
// thread takes part.
module KernelTurns {
  import opened SemaphoreSpec
  import opened SleepList
  import opened KernelSpec
  import opened KernelPlaces
  import opened KernelSteps
  import opened KernelRuns
  import opened KernelFairness

  // ----- who runs next

  // The running thread keeps the processor, with n ticks of its time slice used; q are ready.
  predicate RunsOn(k: KState, q: seq<nat>, n: nat, k': KState) {
    k'.running == k.running && k'.ready == q && k'.counter == n
  }

  // The first thread of q runs, the idle thread if there is none, and the others are ready, last the one that
  // ran before if it goes back.
  predicate NextRuns(k: KState, q: seq<nat>, back: bool, n: nat, k': KState) {
    && k'.running == (if q == [] then k.idle else q[0]) && k'.counter == n
    && k'.ready == (if q == [] then [] else q[1..]) + if back then [k.running] else []
  }

  // The running thread is one to be queued again.
  predicate Requeued(k: KState) {
    k.running in k.threads && !k.threads[k.running].finished && k.running != k.idle
  }

  // The running thread is left to itself if nobody is ready, and goes to the end of the queue otherwise.
  predicate MakesWay(k: KState, q: seq<nat>, back: bool, n: nat, k': KState) {
    if q == [] then RunsOn(k, [], n, k') else NextRuns(k, q, back, 0, k')
  }

  // The sleepers whose last tick this is.
  function Risen(k: KState): seq<nat> {
    Due(Ticked(k.naps)).0
  }

  // Who runs, who is ready and how much of the time slice is used after trap op.
  predicate Turn(k: KState, op: Trap, k': KState)
    requires Allowed(k, op)
  {
    match op
    case Create(t, _, start) => MakesWay(k, k.ready + if start then [t] else [], Requeued(k), k.counter, k')
    case Start(t) => MakesWay(k, k.ready + [t], Requeued(k), k.counter, k')
    case Exit => MakesWay(k, k.ready, false, k.counter, k')
    case Yield => MakesWay(k, k.ready, Requeued(k), k.counter, k')
    case Open(_, _) => MakesWay(k, k.ready, Requeued(k), k.counter, k')
    case CloseSem(s) => MakesWay(k, k.ready + k.sems[s].queue, Requeued(k), k.counter, k')
    case WaitSem(s) =>
      if k.sems[s].val > 0 then RunsOn(k, k.ready, k.counter, k') else NextRuns(k, k.ready, false, k.counter, k')
    case SignalSem(s) =>
      var q := k.sems[s].queue;
      RunsOn(k, k.ready + (if k.sems[s].val < 0 && q != [] then q[..1] else []), k.counter, k')
    case SleepFor(ticks) =>
      if ticks == 0 then RunsOn(k, k.ready, k.counter, k') else NextRuns(k, k.ready, false, k.counter, k')
    case Timer =>
      if k.running in k.threads && k.counter + 1 < k.threads[k.running].slice then
        RunsOn(k, k.ready + Risen(k), k.counter + 1, k')
      else MakesWay(k, k.ready + Risen(k), Requeued(k), 0, k')
  }

  // ----- every trap

  lemma LeaveTurns(k: KState, k0: KState, q: seq<nat>, back: bool)
    requires q == k.ready && back == (CanRun(k, k.running) && k.running != k.idle)
    requires k0.running == k.running && k0.idle == k.idle && k0.counter == k.counter
    ensures MakesWay(k0, q, back, k0.counter, Leave(k))
  {
  }

  lemma GetsNext(k: KState, k0: KState, q: seq<nat>)
    requires q == k.ready && !CanRun(k, k.running)
    requires k0.running == k.running && k0.idle == k.idle && k0.counter == k.counter
    ensures NextRuns(k0, q, false, k0.counter, Dispatch(k))
  {
  }

  lemma RunningCan(k: KState, place: Places)
    requires Sound(k, place)
    ensures k.running in k.threads && k.idle in k.threads
    ensures CanRun(k, k.running) && k.running != k.idle <==> Requeued(k)
    ensures k.running != k.idle ==> In(place, k.running, Running)
  {
    RunningAt(k, place);
  }

  lemma CreateTurn(k: KState, place: Places, t: nat, slice: nat, start: bool)
    requires Sound(k, place) && Allowed(k, Create(t, slice, start))
    ensures Turn(k, Create(t, slice, start), Step(k, Create(t, slice, start)))
  {
    RunningCan(k, place);
    hide Sound, Leave, MakesWay;
    assert k.ready + [] == k.ready;
    LeaveTurns(NewThread(k, t, slice, start), k, k.ready + if start then [t] else [], Requeued(k));
  }

  lemma StartTurn(k: KState, place: Places, t: nat)
    requires Sound(k, place) && Allowed(k, Start(t))
    ensures Turn(k, Start(t), Step(k, Start(t)))
  {
    RunningCan(k, place);
    SoundParts(k, place);
    PlacedParts(k, place);
    assert In(place, t, Unstarted) && t != k.idle;
    hide Sound, Placed, Leave, MakesWay;
    LeaveTurns(StartThread(k, t), k, k.ready + [t], Requeued(k));
  }

  lemma CloseTurn(k: KState, place: Places, s: nat)
    requires Sound(k, place) && Allowed(k, CloseSem(s))
    ensures Turn(k, CloseSem(s), Step(k, CloseSem(s)))
  {
    RunningCan(k, place);
    CloseWakesAll(k, place, s);
    SoundParts(k, place);
    PlacedParts(k, place);
    assert k.running in k.sems[s].queue ==> In(place, k.running, Waiting(s));
    hide Sound, Placed, Leave, MakesWay, Close;
    LeaveTurns(Close(k, s), k, k.ready + k.sems[s].queue, Requeued(k));
  }

  lemma OpenTurn(k: KState, place: Places, s: nat, init: nat)
    requires Sound(k, place) && Allowed(k, Open(s, init))
    ensures Turn(k, Open(s, init), Step(k, Open(s, init)))
  {
    RunningCan(k, place);
    hide Sound, Leave, MakesWay;
    LeaveTurns(k.(sems := k.sems[s := Sem(init, [])]), k, k.ready, Requeued(k));
  }

  lemma LeavingTurn(k: KState, place: Places, op: Trap)
    requires Sound(k, place) && Allowed(k, op) && (op == Exit || op == Yield)
    ensures Turn(k, op, Step(k, op))
  {
    RunningCan(k, place);
    hide Sound, Leave, MakesWay;
    if op == Exit {
      LeaveTurns(SetFinished(k, k.running), k, k.ready, false);
    } else {
      LeaveTurns(k, k, k.ready, Requeued(k));
    }
  }

  lemma WaitTurn(k: KState, s: nat)
    requires Allowed(k, WaitSem(s))
    ensures Turn(k, WaitSem(s), Step(k, WaitSem(s)))
  {
    hide Dispatch, NextRuns;
    var k1 := k.(sems := k.sems[s := k.sems[s].(val := k.sems[s].val - 1)]);
    GetsNext(SetBlocked(k1.(sems := k1.sems[s := k1.sems[s].(queue := k1.sems[s].queue + [k.running])]), k.running,
                        true), k, k.ready);
  }

  lemma SignalTurn(k: KState, place: Places, s: nat)
    requires Sound(k, place) && Allowed(k, SignalSem(s))
    ensures Turn(k, SignalSem(s), Step(k, SignalSem(s)))
  {
    assert k.ready + [] == k.ready;
    if k.sems[s].val < 0 {
      SignalIs(k, place, s);
      assert k.sems[s].queue[..1] == [k.sems[s].queue[0]];
    }
    hide Sound;
  }

  lemma SleepTurn(k: KState, ticks: nat)
    requires Allowed(k, SleepFor(ticks))
    ensures Turn(k, SleepFor(ticks), Step(k, SleepFor(ticks)))
  {
    hide Dispatch, NextRuns, Insert;
    GetsNext(SetSleeping(k.(naps := Insert(k.naps, k.running, ticks)), k.running, true), k, k.ready);
  }

  lemma TimerTurn(k: KState, place: Places)
    requires Sound(k, place)
    ensures Turn(k, Timer, Tick(k))
  {
    var k0, k1 := k.(naps := Ticked(k.naps), counter := k.counter + 1), AfterWake(k);
    RunningCan(k, place);
    WakeUnaltered(k0);
    AfterWakeIs(k);
    TickIs(k);
    SoundParts(k, place);
    TickedPlaced(k, place);
    var place0 := WakePlaced(k0, place);
    var place1 := AfterWakeSound(k, place);
    RunningCan(k1, place1);
    hide Sound, Placed, WakeDue, Due, Ticked, Tick, AfterWake;
    if k1.ready != [] {
      DispatchTurns(k1.(counter := 0), k, k1.ready, Requeued(k));
    }
  }

  lemma DispatchTurns(k: KState, k0: KState, q: seq<nat>, back: bool)
    requires q == k.ready != [] && back == (CanRun(k, k.running) && k.running != k.idle) && k.counter == 0
    requires k0.running == k.running && k0.idle == k.idle
    ensures NextRuns(k0, q, back, 0, Dispatch(k))
  {
  }

  // Every trap hands the processor on as it should.
  lemma TrapTurns(k: KState, place: Places, op: Trap)
    requires Sound(k, place) && Allowed(k, op)
    ensures Turn(k, op, Step(k, op))
  {
    match op
    case Create(t, slice, start) => CreateTurn(k, place, t, slice, start);
    case Start(t) => StartTurn(k, place, t);
    case Exit => LeavingTurn(k, place, op);
    case Yield => LeavingTurn(k, place, op);
    case Open(s, init) => OpenTurn(k, place, s, init);
    case CloseSem(s) => CloseTurn(k, place, s);
    case WaitSem(s) => WaitTurn(k, s);
    case SignalSem(s) => SignalTurn(k, place, s);
    case SleepFor(ticks) => SleepTurn(k, ticks);
    case Timer => TimerTurn(k, place);
  }

  // ----- the time slice

  // A trap that gives the processor away to nobody.
  predicate Quiet(k: KState, op: Trap) {
    op == Timer || op.SignalSem? || op == SleepFor(0) || (op.WaitSem? && op.s in k.sems && k.sems[op.s].val > 0)
  }

  ghost predicate QuietRun(k: KState, ops: seq<Trap>)
    decreases |ops|
  {
    ops == [] || (Quiet(k, ops[0]) && Allowed(k, ops[0]) && QuietRun(Step(k, ops[0]), ops[1..]))
  }

  lemma RunningNotReady(k: KState, place: Places)
    requires Sound(k, place)
    ensures k.running !in k.ready + Risen(k)
  {
    SoundParts(k, place);
    TickedPlaced(k, place);
    var k0 := k.(naps := Ticked(k.naps), counter := k.counter + 1);
    var place0 := WakePlaced(k0, place);
    PlacedParts(WakeDue(k0), place0);
    RunningAt(WakeDue(k0), place0);
    hide Sound, Placed, WakeDue, Due, Ticked;
    var t := k.running;
    assert t in WakeDue(k0).ready <==> In(place0, t, Ready);
  }

  // The thread that runs is not switched out before its time slice is used up, unless it gives the processor
  // away itself; the tick that uses it up hands the processor on if somebody is ready.
  lemma {:induction false} WholeSlice(k: KState, place: Places, ops: seq<Trap>, k': KState)
    requires Sound(k, place) && Run(k, ops, k') && QuietRun(k, ops) && k.running in k.threads
    requires Ticks(ops) == 0 || k.counter + Ticks(ops) < k.threads[k.running].slice
    ensures k'.running == k.running && k.running in k'.threads && k'.counter == k.counter + Ticks(ops)
    ensures k'.threads[k'.running].slice == k.threads[k.running].slice
    ensures k'.counter + 1 >= k'.threads[k'.running].slice && k'.ready + Risen(k') != [] ==>
              Step(k', Timer).running == (k'.ready + Risen(k'))[0] != k.running
    decreases |ops|
  {
    hide Sound, Step, Allowed, Due, Ticked;
    if ops == [] {
      StepIsTick(k);
      TrapTurns(k, place, Timer);
      RunningNotReady(k, place);
    } else {
      var k1 := Step(k, ops[0]);
      var place1 := StepSound(k, place, ops[0]);
      TrapTurns(k, place, ops[0]);
      StepUnaltered(k, ops[0]);
      WholeSlice(k1, place1, ops[1..], k');
    }
  }

  // ----- created and started

  lemma {:induction false} SignalsUnstarted(k: KState, s: nat, n: nat)
    requires s in k.sems
    ensures Signals(k, s, n).unstarted == k.unstarted
    decreases n
  {
    if n > 0 {
      SignalsUnstarted(Signal(k, s), s, n - 1);
    }
  }

  lemma {:induction false} WakeUnstarted(k: KState)
    ensures WakeDue(k).unstarted == k.unstarted
    decreases |k.naps|
  {
    if k.naps != [] && k.naps[0].left == 0 {
      WakeUnstarted(WakeFirst(k));
    }
  }

  lemma LeaveUnstarted(k: KState)
    ensures Leave(k).unstarted == k.unstarted && Dispatch(k).unstarted == k.unstarted
  {
  }

  lemma StepUnstarted(k: KState, op: Trap)
    requires Allowed(k, op)
    ensures Step(k, op).unstarted ==
            match op
            case Create(t, _, start) => if start then k.unstarted else k.unstarted + {t}
            case Start(t) => k.unstarted - {t}
            case _ => k.unstarted
  {
    hide Leave, Dispatch, Signals, WakeDue;
    match op
    case CloseSem(s) =>
      SignalsUnstarted(k, s, if k.sems[s].val <= 0 then 1 - k.sems[s].val else 0);
      LeaveUnstarted(Close(k, s));
    case Timer =>
      var k1 := WakeDue(k.(naps := Ticked(k.naps), counter := k.counter + 1));
      WakeUnstarted(k.(naps := Ticked(k.naps), counter := k.counter + 1));
      LeaveUnstarted(k1.(counter := 0));
    case WaitSem(s) =>
      var k1 := k.(sems := k.sems[s := k.sems[s].(val := k.sems[s].val - 1)]);
      LeaveUnstarted(SetBlocked(k1.(sems := k1.sems[s := k1.sems[s].(queue := k1.sems[s].queue + [k.running])]),
                                k.running, true));
    case SignalSem(s) =>
    case SleepFor(ticks) =>
      LeaveUnstarted(SetSleeping(k.(naps := Insert(k.naps, k.running, ticks)), k.running, true));
    case Create(t, slice, start) => LeaveUnstarted(NewThread(k, t, slice, start));
    case Start(t) => LeaveUnstarted(StartThread(k, t));
    case Exit => LeaveUnstarted(SetFinished(k, k.running));
    case Yield => LeaveUnstarted(k);
    case Open(s, init) => LeaveUnstarted(k.(sems := k.sems[s := Sem(init, [])]));
  }

  // A thread created to start is ready or runs at once, one created not to start does neither; and a thread
  // that is started is ready or runs.
  lemma CreatedStarts(k: KState, place: Places, op: Trap)
    requires Sound(k, place) && Allowed(k, op) && (op.Create? || op.Start?)
    ensures var k' := Step(k, op);
            && op.t in k'.threads && (op.Create? ==> k'.threads[op.t] == Thread(false, false, false, op.slice))
            && (if op.Create? && !op.start then IsAt(k', op.t, Unstarted)
                else IsAt(k', op.t, Ready) || IsAt(k', op.t, Running))
  {
    TrapTurns(k, place, op);
    StepUnaltered(k, op);
    StepUnstarted(k, op);
    if op.Start? {
      SoundParts(k, place);
      PlacedParts(k, place);
      assert In(place, op.t, Unstarted);
    }
    hide Sound, Placed, Step;
    var q := k.ready + [op.t];
    assert q[|k.ready|] == op.t && q == [q[0]] + q[1..];
  }

  // However long a run, a thread that was there at its beginning is not started at its end if and only if it
  // was not at the beginning and the run does not start it; till then it neither is ready nor runs.
  lemma {:induction false} StartedBy(k: KState, place: Places, ops: seq<Trap>, k': KState, t: nat)
    requires Sound(k, place) && Run(k, ops, k') && t in k.threads
    ensures t in k'.threads
    ensures IsAt(k', t, Unstarted) <==> IsAt(k, t, Unstarted) && Start(t) !in ops
    ensures IsAt(k', t, Unstarted) ==> t !in k'.ready && t != k'.running
    decreases |ops|
  {
    hide Sound, Step, Allowed;
    if ops == [] {
      if t in k.unstarted {
        NotStarted(k, place, t);
      }
    } else {
      assert forall op :: op in ops <==> op == ops[0] || op in ops[1..];
      var place1 := StepSound(k, place, ops[0]);
      StepUnaltered(k, ops[0]);
      StepUnstarted(k, ops[0]);
      NewOnes(k, ops[0]);
      StartedBy(Step(k, ops[0]), place1, ops[1..], k', t);
    }
  }

  lemma NewOnes(k: KState, op: Trap)
    requires Allowed(k, op)
    ensures op.Create? ==> op.t !in k.threads
  {
  }

  lemma NotStarted(k: KState, place: Places, t: nat)
    requires Sound(k, place) && t in k.unstarted
    ensures t !in k.ready && t != k.running
  {
    SoundParts(k, place);
    PlacedParts(k, place);
    RunningAt(k, place);
    assert In(place, t, Unstarted);
    assert t in k.ready <==> In(place, t, Ready);
    assert In(place, t, Running) <==> t == k.running && t != k.idle;
  }
}
