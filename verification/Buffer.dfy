// The bounded buffer as an object: slots in an array, two positions, four semaphores. Each method is one
// step of one call, so that callers can interleave them in any way.
module Buffer {
  import opened Sequences
  import opened SemaphoreSpec
  import opened BufferSpec
  import opened BufferProtocol

  class Semaphore {
    var val: int
    var queue: seq<nat>

    constructor (init: nat)
      ensures Value() == Sem(init, [])
    {
      val, queue := init, [];
    }

    ghost function Value(): Sem
      reads this
    {
      Sem(val, queue)
    }

    // Call i gets past the semaphore, or joins the queue.
    method Wait(i: nat) returns (passed: bool)
      modifies this
      ensures passed <==> old(val) >= 1
      ensures Value() == Sem(old(val) - 1, if passed then old(queue) else old(queue) + [i])
    {
      val := val - 1;
      passed := val >= 0;
      if val < 0 {
        queue := queue + [i];
      }
    }

    // The first call of the queue, if there is one, is released.
    method Signal() returns (woken: Option<nat>)
      modifies this
      ensures woken == if old(val) + 1 <= 0 && old(queue) != [] then Some(old(queue)[0]) else None
      ensures Value() == Sem(old(val) + 1, if woken.Some? then old(queue)[1..] else old(queue))
    {
      val := val + 1;
      woken := None;
      if val <= 0 && queue != [] {
        woken := Some(queue[0]);
        queue := queue[1..];
      }
    }
  }

  class BoundedBuffer {
    const cap: nat
    const buffer: array<int>
    const item: Semaphore
    const space: Semaphore
    const mutexHead: Semaphore
    const mutexTail: Semaphore
    var head: nat
    var tail: nat
    var calls: seq<Call>
    ghost var written: seq<int>
    ghost var read: seq<int>

    ghost function View(): BState
      reads this, buffer, item, space, mutexHead, mutexTail
    {
      BState(cap, buffer[..], head, tail, item.Value(), space.Value(), mutexHead.Value(), mutexTail.Value(), calls,
        written, read)
    }

    // The four semaphores are different objects.
    ghost predicate Apart() {
      item != space && item != mutexHead && item != mutexTail && space != mutexHead && space != mutexTail &&
        mutexHead != mutexTail
    }

    ghost predicate Valid()
      reads this, buffer, item, space, mutexHead, mutexTail
    {
      Apart() && Inv(View())
    }

    // myBuffer has as many slots as items, Buffer one more.
    constructor (cap: nat, spare: bool)
      ensures Valid() && View() == Init(cap, buffer[..]) && buffer.Length == cap + if spare then 1 else 0
      ensures fresh(buffer) && fresh(item) && fresh(space) && fresh(mutexHead) && fresh(mutexTail)
    {
      this.cap := cap;
      buffer := new int[cap + if spare then 1 else 0];
      item := new Semaphore(0);
      space := new Semaphore(cap);
      mutexHead := new Semaphore(1);
      mutexTail := new Semaphore(1);
      head, tail, calls, written, read := 0, 0, [], [], [];
      new;
      InitInv(cap, buffer[..]);
    }

    // A thread calls put(v), get() or getCnt().
    method Enter(k: Kind, v: int)
      requires Valid()
      modifies this`calls
      ensures Valid() && View() == Begin(old(View()), k, v)
    {
      hide Inv;
      BeginKeeps(View(), k, v);
      calls := calls + [Call(k, 0, false, v)];
    }

    function Semaphore(w: Which): Semaphore {
      match w
      case Item => item
      case Space => space
      case Head => mutexHead
      case Tail => mutexTail
    }

    // Call i has done its step.
    method Done(i: nat)
      requires i < |calls|
      modifies this`calls
      ensures View() == Advance(old(View()), i)
    {
      calls := calls[i := calls[i].(pc := calls[i].pc + 1, blocked := false)];
    }

    method WaitOn(i: nat, w: Which)
      requires Apart() && i < |calls|
      modifies this`calls, item, space, mutexHead, mutexTail
      ensures View() == DoWait(old(View()), i, w)
    {
      var passed := Semaphore(w).Wait(i);
      if passed {
        Done(i);
      } else {
        calls := calls[i := calls[i].(blocked := true)];
      }
    }

    method SignalTo(i: nat, w: Which)
      requires Apart() && i < |calls|
      requires Semaphore(w).queue != [] ==> Semaphore(w).queue[0] < |calls|
      modifies this`calls, item, space, mutexHead, mutexTail
      ensures View() == DoSignal(old(View()), i, w)
    {
      var woken := Semaphore(w).Signal();
      Done(i);
      match woken
      case Some(j) => Done(j);
      case None =>
    }

    // The next step of call i of put.
    method PutStep(i: nat)
      requires Valid() && CanStep(View(), i) && calls[i].kind == Put
      modifies this, buffer, item, space, mutexHead, mutexTail
      ensures Valid() && old(InSlots(View(), i)) && View() == Step(old(View()), i)
    {
      Ready(i);
      hide Inv, DoWait, DoSignal;
      match calls[i].pc {
        case 0 => WaitOn(i, Space);
        case 1 => WaitOn(i, Tail);
        case 2 =>
          buffer[tail] := calls[i].val;
          written := written + [calls[i].val];
          Done(i);
        case 3 =>
          tail := (tail + 1) % buffer.Length;
          Done(i);
        case 4 => SignalTo(i, Tail);
        case _ => SignalTo(i, Item);
      }
    }

    // The next step of call i of get.
    method GetStep(i: nat)
      requires Valid() && CanStep(View(), i) && calls[i].kind == Get
      modifies this, buffer, item, space, mutexHead, mutexTail
      ensures Valid() && old(InSlots(View(), i)) && View() == Step(old(View()), i)
    {
      Ready(i);
      hide Inv, DoWait, DoSignal;
      match calls[i].pc {
        case 0 => WaitOn(i, Item);
        case 1 => WaitOn(i, Head);
        case 2 =>
          calls := calls[i := calls[i].(val := buffer[head])];
          read := read + [buffer[head]];
          Done(i);
        case 3 =>
          head := (head + 1) % buffer.Length;
          Done(i);
        case 4 => SignalTo(i, Head);
        case _ => SignalTo(i, Space);
      }
    }

    // The next step of call i of getCnt.
    method CountStep(i: nat)
      requires Valid() && CanStep(View(), i) && calls[i].kind == Count
      modifies this, buffer, item, space, mutexHead, mutexTail
      ensures Valid() && old(InSlots(View(), i)) && View() == Step(old(View()), i)
    {
      Ready(i);
      hide Inv, DoWait, DoSignal;
      match calls[i].pc {
        case 0 => WaitOn(i, Head);
        case 1 => WaitOn(i, Tail);
        case 2 =>
          var ret := if tail >= head then tail - head else buffer.Length - head + tail;
          calls := calls[i := calls[i].(val := ret)];
          Done(i);
        case 3 => SignalTo(i, Tail);
        case _ => SignalTo(i, Head);
      }
    }

    // What a step needs to know of the state before it.
    lemma Ready(i: nat)
      requires Valid() && CanStep(View(), i)
      ensures Apart() && i < |calls| && InSlots(View(), i)
      ensures forall w :: Semaphore(w).queue != [] ==> Semaphore(w).queue[0] < |calls|
      ensures Inv(Step(View(), i))
    {
      hide Step, Tally, CanStep, ActionOf;
      PositionsInside(View(), i);
      StepKeepsAll(View(), i);
      forall w | Semaphore(w).queue != []
        ensures Semaphore(w).queue[0] < |calls|
      {
        assert QueueOk(View(), w);
        assert SemOf(View(), w).queue == Semaphore(w).queue;
        assert Semaphore(w).queue[0] in SemOf(View(), w).queue;
      }
      assert i < |calls| by {
        CallThere(View(), i);
      }
    }

    lemma CallThere(b: BState, i: nat)
      requires CanStep(b, i)
      ensures i < |b.calls|
    {
    }
  }
}
