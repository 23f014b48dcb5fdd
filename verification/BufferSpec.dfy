// The bounded buffer (myBuffer.cpp, and test/buffer.cpp with one slot to spare) as a protocol: any number
// of calls of put, get and getCnt, interleaved at every semaphore operation and every statement.
module BufferSpec {
  import opened SemaphoreSpec

  datatype Kind = Put | Get | Count

  // One call: pc is the number of its steps done. val is the value put, got or counted.
  datatype Call = Call(kind: Kind, pc: nat, blocked: bool, val: int)

  // written and read are the histories of values put into slots and taken from them.
  datatype BState = BState(cap: nat, buf: seq<int>, head: nat, tail: nat,
                           item: Sem, space: Sem, mutexHead: Sem, mutexTail: Sem,
                           calls: seq<Call>, written: seq<int>, read: seq<int>)

  // The four semaphores.
  datatype Which = Item | Space | Head | Tail

  function SemOf(b: BState, w: Which): Sem {
    match w
    case Item => b.item
    case Space => b.space
    case Head => b.mutexHead
    case Tail => b.mutexTail
  }

  function WithSem(b: BState, w: Which, m: Sem): BState {
    match w
    case Item => b.(item := m)
    case Space => b.(space := m)
    case Head => b.(mutexHead := m)
    case Tail => b.(mutexTail := m)
  }

  // What a call does in its step number pc.
  datatype Action = Wait(w: Which) | Signal(w: Which) | Write | AdvanceTail | Read | AdvanceHead | Compute | Finished

  function ActionOf(c: Call): Action {
    match c.kind
    case Put =>
      (match c.pc
       case 0 => Wait(Space)
       case 1 => Wait(Tail)
       case 2 => Write
       case 3 => AdvanceTail
       case 4 => Signal(Tail)
       case 5 => Signal(Item)
       case _ => Finished)
    case Get =>
      (match c.pc
       case 0 => Wait(Item)
       case 1 => Wait(Head)
       case 2 => Read
       case 3 => AdvanceHead
       case 4 => Signal(Head)
       case 5 => Signal(Space)
       case _ => Finished)
    case Count =>
      (match c.pc
       case 0 => Wait(Head)
       case 1 => Wait(Tail)
       case 2 => Compute
       case 3 => Signal(Tail)
       case 4 => Signal(Head)
       case _ => Finished)
  }

  // The number getCnt computes from head and tail.
  function CountOf(slots: nat, head: nat, tail: nat): int {
    if tail >= head then tail - head else slots - head + tail
  }

  // Call i has done one more step.
  function Advance(b: BState, i: nat): BState
    requires i < |b.calls|
  {
    b.(calls := b.calls[i := b.calls[i].(pc := b.calls[i].pc + 1, blocked := false)])
  }

  // wait: past it at once, or blocked until a signal.
  function DoWait(b: BState, i: nat, w: Which): BState
    requires i < |b.calls|
  {
    var m := SemOf(b, w);
    if m.val - 1 < 0 then
      WithSem(b, w, Sem(m.val - 1, m.queue + [i])).(calls := b.calls[i := b.calls[i].(blocked := true)])
    else Advance(WithSem(b, w, Sem(m.val - 1, m.queue)), i)
  }

  // signal: the first blocked call, if any, gets past its wait.
  function DoSignal(b: BState, i: nat, w: Which): BState
    requires i < |b.calls|
  {
    var m := SemOf(b, w);
    var b1 := Advance(b, i);
    if m.val + 1 <= 0 && m.queue != [] && m.queue[0] < |b.calls| then
      Advance(WithSem(b1, w, Sem(m.val + 1, m.queue[1..])), m.queue[0])
    else WithSem(b1, w, Sem(m.val + 1, m.queue))
  }

  // Call i may take its next step.
  predicate CanStep(b: BState, i: nat) {
    i < |b.calls| && !b.calls[i].blocked && ActionOf(b.calls[i]) != Finished
  }

  // The slot call i is about to use exists, and so does the next position it computes.
  predicate InSlots(b: BState, i: nat)
    requires i < |b.calls|
  {
    match ActionOf(b.calls[i])
    case Write => b.tail < |b.buf|
    case Read => b.head < |b.buf|
    case AdvanceTail => |b.buf| > 0
    case AdvanceHead => |b.buf| > 0
    case _ => true
  }

  function Step(b: BState, i: nat): BState
    requires CanStep(b, i) && InSlots(b, i)
  {
    var c := b.calls[i];
    match ActionOf(c)
    case Wait(w) => DoWait(b, i, w)
    case Signal(w) => DoSignal(b, i, w)
    case Write => Advance(b.(buf := b.buf[b.tail := c.val], written := b.written + [c.val]), i)
    case AdvanceTail => Advance(b.(tail := (b.tail + 1) % |b.buf|), i)
    case Read =>
      var v := b.buf[b.head];
      Advance(b.(read := b.read + [v], calls := b.calls[i := c.(val := v)]), i)
    case AdvanceHead => Advance(b.(head := (b.head + 1) % |b.buf|), i)
    case Compute => Advance(b.(calls := b.calls[i := c.(val := CountOf(|b.buf|, b.head, b.tail))]), i)
    case Finished => b
  }

  // A new call begins.
  function Begin(b: BState, k: Kind, v: int): BState {
    b.(calls := b.calls + [Call(k, 0, false, v)])
  }

  // A buffer for cap items, its slots as given, nothing in it and nobody calling.
  function Init(cap: nat, slots: seq<int>): BState {
    BState(cap, slots, 0, 0, Sem(0, []), Sem(cap, []), Sem(1, []), Sem(1, []), [], [], [])
  }

  datatype Event = Enter(k: Kind, v: int) | Go(i: nat)

  ghost predicate Run(b: BState, es: seq<Event>, b': BState)
    decreases |es|
  {
    if es == [] then b == b'
    else match es[0]
      case Enter(k, v) => Run(Begin(b, k, v), es[1..], b')
      case Go(i) => CanStep(b, i) && InSlots(b, i) && Run(Step(b, i), es[1..], b')
  }

  // ----- counting calls

  function Num(cs: seq<Call>, p: Call -> bool): nat {
    if cs == [] then 0 else (if p(cs[0]) then 1 else 0) + Num(cs[1..], p)
  }

  lemma {:induction false} NumUpdate(cs: seq<Call>, p: Call -> bool, i: nat, c: Call)
    requires i < |cs|
    ensures Num(cs[i := c], p) == Num(cs, p) - (if p(cs[i]) then 1 else 0) + (if p(c) then 1 else 0)
    ensures p(cs[i]) ==> Num(cs, p) >= 1
  {
    if i == 0 {
      assert cs[i := c][1..] == cs[1..];
    } else {
      NumUpdate(cs[1..], p, i - 1, c);
      assert cs[i := c][1..] == cs[1..][i - 1 := c];
    }
  }

  lemma {:induction false} NumAppend(cs: seq<Call>, p: Call -> bool, c: Call)
    ensures Num(cs + [c], p) == Num(cs, p) + if p(c) then 1 else 0
  {
    if cs == [] {
      assert cs + [c] == [c];
    } else {
      NumAppend(cs[1..], p, c);
      assert (cs + [c])[1..] == cs[1..] + [c];
    }
  }

  lemma {:induction false} NumSame(cs: seq<Call>, p: Call -> bool, q: Call -> bool)
    requires forall i: nat :: i < |cs| ==> p(cs[i]) == q(cs[i])
    ensures Num(cs, p) == Num(cs, q)
  {
    if cs != [] {
      assert forall i: nat :: i < |cs[1..]| ==> cs[1..][i] == cs[i + 1];
      NumSame(cs[1..], p, q);
    }
  }

  lemma {:induction false} NumFewer(cs: seq<Call>, p: Call -> bool, q: Call -> bool)
    requires forall i: nat :: i < |cs| ==> p(cs[i]) ==> q(cs[i])
    ensures Num(cs, p) <= Num(cs, q)
  {
    if cs != [] {
      assert forall i: nat :: i < |cs[1..]| ==> cs[1..][i] == cs[i + 1];
      NumFewer(cs[1..], p, q);
    }
  }
}
