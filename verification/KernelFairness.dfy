// Nobody starves: the timer takes the processor away from whoever runs before long, and the ready queue is
// served in order.
module KernelFairness {
  import opened SemaphoreSpec
  import opened SleepList
  import opened KernelSpec
  import opened KernelPlaces
  import opened KernelSteps
  import opened KernelRuns

  // ----- time slices and the finished flag

  // From f to g no thread goes, and none gets another time slice or finished flag.
  ghost predicate Unaltered(f: map<nat, Thread>, g: map<nat, Thread>) {
    f.Keys == g.Keys && forall t :: t in f ==> g[t].slice == f[t].slice && g[t].finished == f[t].finished
  }

  lemma UnalteredThen(f: map<nat, Thread>, g: map<nat, Thread>, h: map<nat, Thread>)
    requires Unaltered(f, g) && Unaltered(g, h)
    ensures Unaltered(f, h)
  {
  }

  lemma DispatchUnaltered(k: KState)
    ensures Dispatch(k).threads == k.threads && Dispatch(k).counter == k.counter
    ensures Dispatch(k).idle == k.idle && Leave(k).idle == k.idle
    ensures Leave(k).threads == k.threads && Leave(k).counter == if k.ready == [] then k.counter else 0
  {
  }

  lemma SignalUnaltered(k: KState, s: nat)
    requires s in k.sems
    ensures Unaltered(k.threads, Signal(k, s).threads) && Signal(k, s).counter == k.counter &&
            Signal(k, s).idle == k.idle
  {
  }

  lemma {:induction false} SignalsUnaltered(k: KState, s: nat, n: nat)
    requires s in k.sems
    ensures Unaltered(k.threads, Signals(k, s, n).threads) && Signals(k, s, n).counter == k.counter &&
            Signals(k, s, n).idle == k.idle
    decreases n
  {
    if n > 0 {
      SignalUnaltered(k, s);
      hide Unaltered, Signal;
      SignalsUnaltered(Signal(k, s), s, n - 1);
      UnalteredThen(k.threads, Signal(k, s).threads, Signals(k, s, n).threads);
    }
  }

  lemma {:induction false} WakeUnaltered(k: KState)
    ensures Unaltered(k.threads, WakeDue(k).threads) && WakeDue(k).counter == k.counter && WakeDue(k).idle == k.idle
    ensures WakeDue(k).running == k.running
    decreases |k.naps|
  {
    if k.naps != [] && k.naps[0].left == 0 {
      assert Unaltered(k.threads, WakeFirst(k).threads);
      hide Unaltered;
      WakeUnaltered(WakeFirst(k));
      UnalteredThen(k.threads, WakeFirst(k).threads, WakeDue(k).threads);
    }
  }

  lemma WaitUnaltered(k: KState, s: nat)
    requires s in k.sems
    ensures Unaltered(k.threads, Wait(k, s).threads) && Wait(k, s).counter == k.counter && Wait(k, s).idle == k.idle
  {
    hide Dispatch;
    var k1 := k.(sems := k.sems[s := k.sems[s].(val := k.sems[s].val - 1)]);
    DispatchUnaltered(SetBlocked(k1.(sems := k1.sems[s := k1.sems[s].(queue := k1.sems[s].queue + [k.running])]),
                                 k.running, true));
  }

  lemma SleepUnaltered(k: KState, ticks: nat)
    ensures Unaltered(k.threads, Sleep(k, ticks).threads) && Sleep(k, ticks).counter == k.counter &&
            Sleep(k, ticks).idle == k.idle
  {
    hide Dispatch, Insert;
    DispatchUnaltered(SetSleeping(k.(naps := Insert(k.naps, k.running, ticks)), k.running, true));
  }

  lemma TickUnaltered(k: KState)
    ensures Unaltered(k.threads, Tick(k).threads) && Tick(k).idle == k.idle
  {
    hide WakeDue, Dispatch;
    WakeUnaltered(k.(naps := Ticked(k.naps), counter := k.counter + 1));
    DispatchUnaltered(AfterWake(k).(counter := 0));
  }

  lemma CloseUnaltered(k: KState, s: nat)
    requires s in k.sems
    ensures Unaltered(k.threads, Close(k, s).threads) && Close(k, s).counter == k.counter && Close(k, s).idle == k.idle
  {
    hide Signals;
    SignalsUnaltered(k, s, if k.sems[s].val <= 0 then 1 - k.sems[s].val else 0);
  }

  // A step alters only the flag of a thread that exits, and adds only the thread it creates.
  lemma StepUnaltered(k: KState, op: Trap)
    requires Allowed(k, op)
    ensures match op
            case Create(t, slice, _) => Step(k, op).threads == k.threads[t := Thread(false, false, false, slice)]
            case Exit => Unaltered(SetFinished(k, k.running).threads, Step(k, op).threads)
            case _ => Unaltered(k.threads, Step(k, op).threads)
    ensures Step(k, op).idle == k.idle
  {
    hide Wait, Signal, Sleep, Tick, Close, Leave;
    match op
    case CloseSem(s) =>
      CloseUnaltered(k, s);
      DispatchUnaltered(Close(k, s));
    case Timer => TickUnaltered(k);
    case WaitSem(s) => WaitUnaltered(k, s);
    case SignalSem(s) => SignalUnaltered(k, s);
    case SleepFor(ticks) => SleepUnaltered(k, ticks);
    case Create(t, slice, start) => DispatchUnaltered(NewThread(k, t, slice, start));
    case Start(t) => DispatchUnaltered(StartThread(k, t));
    case Exit => DispatchUnaltered(SetFinished(k, k.running));
    case Yield => DispatchUnaltered(k);
    case Open(s, init) => DispatchUnaltered(k.(sems := k.sems[s := Sem(init, [])]));
  }

  // ----- the slice counter

  // No thread has a time slice of more than max ticks, and the running one has not used up as many.
  ghost predicate Quick(k: KState, max: nat) {
    k.counter < max && forall t :: t in k.threads ==> k.threads[t].slice <= max
  }

  predicate QuickTrap(op: Trap, max: nat) {
    op.Create? ==> op.slice <= max
  }

  lemma QuickKept(k: KState, op: Trap, max: nat)
    requires Allowed(k, op) && Quick(k, max) && QuickTrap(op, max)
    ensures forall t :: t in Step(k, op).threads ==> Step(k, op).threads[t].slice <= max
  {
    StepUnaltered(k, op);
    hide Step, Allowed;
  }

  // While somebody is ready a tick either counts or takes a thread off the queue, and no other step counts.
  lemma CounterStep(k: KState, place: Places, op: Trap, max: nat)
    requires Sound(k, place) && Allowed(k, op) && Quick(k, max)
    ensures var k' := Step(k, op);
            && k'.counter < max
            && (k.ready != [] && Gets(k, op) == 0 ==> k'.counter == k.counter + if op == Timer then 1 else 0)
  {
    hide Sound, Wait, Signal, Sleep, Close, Leave, Tick, Dispatch;
    match op
    case CloseSem(s) =>
      CloseUnaltered(k, s);
      CloseWakesAll(k, place, s);
      DispatchUnaltered(Close(k, s));
    case Timer => TickCounter(k, place, max);
    case WaitSem(s) => WaitUnaltered(k, s);
    case SignalSem(s) => SignalUnaltered(k, s);
    case SleepFor(ticks) => SleepUnaltered(k, ticks);
    case Create(t, slice, start) => DispatchUnaltered(NewThread(k, t, slice, start));
    case Start(t) => DispatchUnaltered(StartThread(k, t));
    case Exit => DispatchUnaltered(SetFinished(k, k.running));
    case Yield => DispatchUnaltered(k);
    case Open(s, init) => DispatchUnaltered(k.(sems := k.sems[s := Sem(init, [])]));
  }

  lemma TickCounter(k: KState, place: Places, max: nat)
    requires Sound(k, place) && Quick(k, max)
    ensures Tick(k).counter < max
    ensures k.ready != [] && (AfterWake(k).counter < Slice(AfterWake(k)) || AfterWake(k).ready == []) ==>
              Tick(k).counter == k.counter + 1
  {
    var k0 := k.(naps := Ticked(k.naps), counter := k.counter + 1);
    WakeUnaltered(k0);
    AfterWakeIs(k);
    SoundParts(k, place);
    hide Sound, Placed, WakeDue, Due;
    TickIs(k);
    TickedPlaced(k, place);
    var place1 := WakePlaced(k0, place);
    assert k.ready != [] ==> AfterWake(k).ready != [];
  }

  // Time slices bound the counter for good.
  lemma {:induction false} QuickRuns(k: KState, place: Places, ops: seq<Trap>, k': KState, max: nat)
    requires Sound(k, place) && Run(k, ops, k') && Quick(k, max) && forall op :: op in ops ==> QuickTrap(op, max)
    ensures Quick(k', max)
    decreases |ops|
  {
    hide Sound, Step, Allowed;
    if ops != [] {
      assert ops[0] in ops && forall op :: op in ops[1..] ==> op in ops;
      QuickKept(k, ops[0], max);
      CounterStep(k, place, ops[0], max);
      var place1 := StepSound(k, place, ops[0]);
      QuickRuns(Step(k, ops[0]), place1, ops[1..], k', max);
    }
  }

  // ----- bounded waiting

  // One step: the thread at position p comes to run, or it is at p', and what is left of max * (p + 1) ticks
  // goes down by one at a tick and never goes up.
  lemma OneStepCloser(k: KState, place: Places, op: Trap, p: nat, max: nat) returns (p': nat)
    requires Sound(k, place) && Allowed(k, op) && p < |k.ready| && Quick(k, max) && QuickTrap(op, max)
    ensures var k', t := Step(k, op), k.ready[p];
            && Quick(k', max)
            && (k'.running == t || (p' < |k'.ready| && k'.ready[p'] == t
                                    && max * (p' + 1) - k'.counter + (if op == Timer then 1 else 0)
                                       <= max * (p + 1) - k.counter))
  {
    hide Sound, Step, Allowed, Gets;
    var g := Gets(k, op);
    StepAdvances(k, place, op);
    AdvancedAt(k, Step(k, op), g, p);
    QuickKept(k, op, max);
    CounterStep(k, place, op, max);
    p' := if g <= p then p - g else 0;
    Multiples(max, p);
    Multiples(max, p');
  }

  // max * (p + 1) ticks are enough for the thread at position p of the ready queue to come to run, whatever
  // else happens: whoever calls, exits, wakes up, is created or readied meanwhile.
  lemma {:induction false} NobodyStarves(k: KState, place: Places, ops: seq<Trap>, k': KState, p: nat, max: nat)
    returns (n: nat, k1: KState)
    requires Sound(k, place) && Run(k, ops, k') && p < |k.ready|
    requires Quick(k, max) && forall op :: op in ops ==> QuickTrap(op, max)
    requires Ticks(ops) + k.counter >= max * (p + 1)
    ensures n <= |ops| && Run(k, ops[..n], k1) && k1.running == k.ready[p]
    decreases |ops|
  {
    hide Sound, Step, Allowed;
    if ops == [] {
      Multiples(max, p);
      assert false;
    } else {
      assert ops[0] in ops && forall op :: op in ops[1..] ==> op in ops;
      var k2 := Step(k, ops[0]);
      var place2 := StepSound(k, place, ops[0]);
      var p2 := OneStepCloser(k, place, ops[0], p, max);
      if k2.running == k.ready[p] {
        n, k1 := 1, k2;
        OneStep(k, ops[0], ops);
      } else {
        n, k1 := NobodyStarves(k2, place2, ops[1..], k', p2, max);
        assert ops[..n + 1][1..] == ops[1..][..n] && ops[..n + 1][0] == ops[0];
        n := n + 1;
      }
    }
  }

  lemma Multiples(max: nat, p: nat)
    ensures max * (p + 1) == max * p + max && (p > 0 ==> max * p >= max)
  {
  }

  lemma OneStep(k: KState, op: Trap, ops: seq<Trap>)
    requires Allowed(k, op) && ops != [] && ops[0] == op
    ensures Run(k, ops[..1], Step(k, op))
  {
    assert ops[..1] == [op] && [op][1..] == [];
  }

  // ----- who can run goes on to

  // A thread that makes calls and is on the ready queue or runs.
  predicate Runnable(k: KState, t: nat) {
    t in k.threads && !k.threads[t].finished && t != k.idle && (t in k.ready || t == k.running)
  }

  lemma ReadyStays(k: KState, place: Places, op: Trap, t: nat)
    requires Sound(k, place) && Allowed(k, op) && t in k.ready
    ensures t in Step(k, op).ready || t == Step(k, op).running
  {
    hide *;
    StepAdvances(k, place, op);
    var p :| 0 <= p < |k.ready| && k.ready[p] == t;
    AdvancedAt(k, Step(k, op), Gets(k, op), p);
  }

  // The running thread loses the processor to the timer only, and then it is ready.
  lemma RunningStays(k: KState, place: Places)
    requires Sound(k, place) && Runnable(k, k.running)
    ensures k.running in Tick(k).ready || k.running == Tick(k).running
  {
    var k0, k1 := k.(naps := Ticked(k.naps), counter := k.counter + 1), AfterWake(k);
    var place1 := AfterWakeSound(k, place);
    AfterWakeIs(k);
    WakeUnaltered(k0);
    RunningAt(k1, place1);
    TickIs(k);
    hide Sound, Placed, WakeDue, Dispatch, Tick, AfterWake;
    if k1.ready != [] {
      GoesBack(k1.(counter := 0));
    }
  }

  lemma GoesBack(k: KState)
    requires CanRun(k, k.running) && k.running != k.idle
    ensures k.running in Dispatch(k).ready || k.running == Dispatch(k).running
  {
    var k1 := Put(k, k.running);
    assert k1.ready == k.ready + [k.running] && k1.ready[|k.ready|] == k.running;
    assert k1.ready == [k1.ready[0]] + k1.ready[1..];
  }

  // A thread that does not itself exit, sleep, wait or yield stays ready or running.
  lemma RunnableStays(k: KState, place: Places, op: Trap, t: nat)
    requires Sound(k, place) && Allowed(k, op) && Runnable(k, t)
    requires t == k.running ==> op == Timer
    ensures Runnable(Step(k, op), t)
  {
    StepUnaltered(k, op);
    hide Sound, Step, Allowed;
    if t in k.ready {
      ReadyStays(k, place, op, t);
    } else {
      RunningStays(k, place);
      StepIsTick(k);
    }
  }
}
