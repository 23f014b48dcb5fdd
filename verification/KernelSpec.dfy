// The thread kernel on values: ready queue, semaphores, sleeping threads, and what each trap does.
// Threads and semaphores are named by numbers. The classes in Kernel are proved against these functions.
module KernelSpec {
  import opened SemaphoreSpec
  import opened SleepList

  datatype Thread = Thread(finished: bool, blocked: bool, sleeping: bool, slice: nat)

  // running has used counter ticks of its time slice; unstarted threads are created but on no queue.
  datatype KState = KState(idle: nat, threads: map<nat, Thread>, unstarted: set<nat>, ready: seq<nat>,
                           sems: map<nat, Sem>, naps: seq<Nap>, running: nat, counter: nat)

  function WithThread(k: KState, t: nat, f: Thread): KState {
    k.(threads := k.threads[t := f])
  }

  // Scheduler::put: the idle thread is never queued.
  function Put(k: KState, t: nat): KState {
    if t == k.idle then k else k.(ready := k.ready + [t])
  }

  // Scheduler::get as dispatch uses it: with nobody ready, the idle thread.
  function Get(k: KState): KState {
    if k.ready == [] then k.(running := k.idle) else k.(running := k.ready[0], ready := k.ready[1..])
  }

  predicate CanRun(k: KState, t: nat) {
    t in k.threads && !k.threads[t].finished && !k.threads[t].blocked && !k.threads[t].sleeping
  }

  // TCB::dispatch
  function Dispatch(k: KState): KState {
    Get(if CanRun(k, k.running) then Put(k, k.running) else k)
  }

  // The end of most system calls: a dispatch, unless nobody is ready.
  function Leave(k: KState): KState {
    if k.ready == [] then k else Dispatch(k.(counter := 0))
  }

  function SetBlocked(k: KState, t: nat, b: bool): KState {
    if t in k.threads then WithThread(k, t, k.threads[t].(blocked := b)) else k
  }

  function SetSleeping(k: KState, t: nat, b: bool): KState {
    if t in k.threads then WithThread(k, t, k.threads[t].(sleeping := b)) else k
  }

  function SetFinished(k: KState, t: nat): KState {
    if t in k.threads then WithThread(k, t, k.threads[t].(finished := true)) else k
  }

  // ----- semaphores

  // mySemaphore::unblock
  function Unblock(k: KState, s: nat): KState
    requires s in k.sems
  {
    var q := k.sems[s].queue;
    if q == [] then k
    else Put(SetBlocked(k.(sems := k.sems[s := k.sems[s].(queue := q[1..])]), q[0], false), q[0])
  }

  // mySemaphore::signal
  function Signal(k: KState, s: nat): KState
    requires s in k.sems
  {
    var k1 := k.(sems := k.sems[s := k.sems[s].(val := k.sems[s].val + 1)]);
    if k1.sems[s].val <= 0 then Unblock(k1, s) else k1
  }

  // mySemaphore::wait by the running thread
  function Wait(k: KState, s: nat): KState
    requires s in k.sems
  {
    var k1 := k.(sems := k.sems[s := k.sems[s].(val := k.sems[s].val - 1)]);
    if k1.sems[s].val < 0 then
      Dispatch(SetBlocked(k1.(sems := k1.sems[s := k1.sems[s].(queue := k1.sems[s].queue + [k.running])]), k.running,
        true))
    else k1
  }

  // n signals in a row
  function Signals(k: KState, s: nat, n: nat): (r: KState)
    requires s in k.sems
    ensures s in r.sems
    decreases n
  {
    if n == 0 then k else Signals(Signal(k, s), s, n - 1)
  }

  // sem_closeWrapper: signals for as long as the old value, counted up, is not positive; then the semaphore
  // is gone.
  function Close(k: KState, s: nat): KState
    requires s in k.sems
  {
    var n := if k.sems[s].val <= 0 then 1 - k.sems[s].val else 0;
    var k1 := Signals(k, s, n);
    k1.(sems := k1.sems - {s})
  }

  // ----- sleeping

  // TCB::putToSleep of the running thread
  function Sleep(k: KState, t: nat): KState {
    if t == 0 then k
    else Dispatch(SetSleeping(k.(naps := Insert(k.naps, k.running, t)), k.running, true))
  }

  // Riscv::wakeSleepingThreads: the first sleeper becomes ready if its time is up, then the next.
  function WakeDue(k: KState): KState
    decreases |k.naps|
  {
    if k.naps == [] || k.naps[0].left > 0 then k
    else WakeDue(WakeFirst(k))
  }

  function WakeFirst(k: KState): KState
    requires k.naps != []
  {
    Put(SetSleeping(k.(naps := k.naps[1..]), k.naps[0].id, false), k.naps[0].id)
  }

  // The timer branch of the trap handler.
  function Tick(k: KState): KState {
    var k1 := WakeDue(k.(naps := Ticked(k.naps), counter := k.counter + 1));
    if k1.counter < Slice(k1) then k1
    else if k1.ready == [] then k1.(counter := 0)
    else Dispatch(k1.(counter := 0))
  }

  // The time slice of the running thread.
  function Slice(k: KState): nat {
    if k.running in k.threads then k.threads[k.running].slice else 0
  }

  // ----- traps

  datatype Trap =
    | Create(t: nat, slice: nat, start: bool)
    | Start(t: nat)
    | Exit
    | Yield
    | Open(s: nat, init: nat)
    | CloseSem(s: nat)
    | WaitSem(s: nat)
    | SignalSem(s: nat)
    | SleepFor(ticks: nat)
    | Timer

  // What the running thread may ask for. A finished thread asks for nothing, the idle thread only yields;
  // a thread is started once, and only semaphores that are open are used.
  predicate Allowed(k: KState, op: Trap) {
    && (op != Timer ==> k.running in k.threads && !k.threads[k.running].finished)
    && (op != Timer && op != Yield ==> k.running != k.idle)
    && match op
       case Create(t, _, _) => t !in k.threads
       case Start(t) => t in k.unstarted
       case Open(s, _) => s !in k.sems
       case CloseSem(s) => s in k.sems
       case WaitSem(s) => s in k.sems
       case SignalSem(s) => s in k.sems
       case _ => true
  }

  function NewThread(k: KState, t: nat, slice: nat, start: bool): KState {
    var k1 := WithThread(k, t, Thread(false, false, false, slice));
    if start then Put(k1, t) else k1.(unstarted := k1.unstarted + {t})
  }

  function StartThread(k: KState, t: nat): KState {
    Put(k.(unstarted := k.unstarted - {t}), t)
  }

  function Step(k: KState, op: Trap): KState
    requires Allowed(k, op)
  {
    match op
    case Create(t, slice, start) => Leave(NewThread(k, t, slice, start))
    case Start(t) => Leave(StartThread(k, t))
    case Exit => Leave(SetFinished(k, k.running))
    case Yield => Leave(k)
    case Open(s, init) => Leave(k.(sems := k.sems[s := Sem(init, [])]))
    case CloseSem(s) => Leave(Close(k, s))
    case WaitSem(s) => Wait(k, s)
    case SignalSem(s) => Signal(k, s)
    case SleepFor(ticks) => Sleep(k, ticks)
    case Timer => Tick(k)
  }

  // ops lead from k to t, each allowed when it comes.
  ghost predicate Run(k: KState, ops: seq<Trap>, t: KState)
    decreases |ops|
  {
    if ops == [] then k == t
    else Allowed(k, ops[0]) && Run(Step(k, ops[0]), ops[1..], t)
  }
}
