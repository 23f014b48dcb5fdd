// Thread control blocks, and the two queues threads are linked on: the ready queue of the scheduler
// (myScheduler.cpp) and the waiting queue of a semaphore (mySemaphore.cpp).
module Threads {

  class Tcb {
    const id: nat
    const timeSlice: nat
    var finished: bool
    var blocked: bool
    var sleeping: bool
    var nextTcb: Tcb?
    var nextSem: Tcb?
    var nextSleep: Tcb?
    var sleepLeft: nat

    constructor (id: nat, timeSlice: nat)
      ensures this.id == id && this.timeSlice == timeSlice && !finished && !blocked && !sleeping
      ensures nextTcb == null && nextSem == null && nextSleep == null && sleepLeft == 0
    {
      this.id, this.timeSlice := id, timeSlice;
      finished, blocked, sleeping := false, false, false;
      nextTcb, nextSem, nextSleep, sleepLeft := null, null, null, 0;
    }
  }

  ghost predicate Distinct(q: seq<Tcb>) {
    forall i, j :: 0 <= i < j < |q| ==> q[i] != q[j]
  }

  // The thread at position i; null behind the end.
  ghost function At(q: seq<Tcb>, i: nat): Tcb? {
    if i < |q| then q[i] else null
  }

  ghost function First(q: seq<Tcb>): set<Tcb> {
    if q == [] then {} else {q[0]}
  }

  ghost function Last(q: seq<Tcb>): set<Tcb> {
    if q == [] then {} else {q[|q| - 1]}
  }

  ghost function Behind(q: seq<Tcb>, i: nat): set<Tcb> {
    if i < |q| then {q[i]} else {}
  }

  // q with t in front of position i.
  lemma Inserted(q: seq<Tcb>, r: seq<Tcb>, i: nat, t: Tcb)
    requires i <= |q| && r == q[..i] + [t] + q[i..] && Distinct(q) && t !in q
    ensures Distinct(r) && |r| == |q| + 1 && r[i] == t
    ensures forall j: nat :: j < i ==> r[j] == q[j]
    ensures forall j: nat :: i < j < |r| ==> r[j] == q[j - 1]
  {
  }

  lemma NoEnds(q: seq<Tcb>)
    requires q == []
    ensures First(q) == {} && Last(q) == {}
  {
  }

  ghost function Numbers(q: seq<Tcb>): (s: seq<nat>)
    ensures |s| == |q| && forall i :: 0 <= i < |q| ==> s[i] == q[i].id
  {
    seq(|q|, i requires 0 <= i < |q| => q[i].id)
  }

  lemma NumbersAppend(q: seq<Tcb>, t: Tcb)
    ensures Numbers(q + [t]) == Numbers(q) + [t.id]
  {
  }

  lemma NumbersTail(q: seq<Tcb>)
    requires q != []
    ensures Numbers(q[1..]) == Numbers(q)[1..] && Numbers(q)[0] == q[0].id
  {
  }

  class Scheduler {
    const idle: Tcb
    var head: Tcb?
    var tail: Tcb?
    ghost var queue: seq<Tcb>

    ghost predicate Linked(q: seq<Tcb>)
      reads q`nextTcb
    {
      forall i: nat :: i < |q| ==> q[i].nextTcb == At(q, i + 1)
    }

    // The queue runs from head to tail; tail means nothing while the queue is empty.
    ghost predicate Valid()
      reads this, queue`nextTcb
    {
      Distinct(queue) && Linked(queue) && head == At(queue, 0) && (queue != [] ==> tail == At(queue, |queue| - 1))
    }

    constructor (idle: Tcb)
      ensures Valid() && queue == [] && this.idle == idle
    {
      this.idle := idle;
      head, tail, queue := null, null, [];
    }

    method Get() returns (t: Tcb)
      requires Valid()
      modifies this`head, this`tail, this`queue, First(queue)`nextTcb
      ensures Valid()
      ensures old(queue) == [] ==> t == idle && queue == []
      ensures old(queue) != [] ==> t == old(queue)[0] && queue == old(queue)[1..] && t.nextTcb == null
    {
      if head == null {
        tail := null;
        return idle;
      }
      t := head;
      head := head.nextTcb;
      t.nextTcb := null;
      ghost var rest := queue[1..];
      assert forall i: nat :: i < |rest| ==> rest[i] == queue[i + 1] && rest[i] != t;
      queue := rest;
    }

    // The idle thread is never queued.
    method Put(t: Tcb)
      requires Valid() && t !in queue && t.nextTcb == null
      modifies this`head, this`tail, this`queue, Last(queue)`nextTcb
      ensures Valid() && queue == if t.id == idle.id then old(queue) else old(queue) + [t]
      ensures t.nextTcb == null
    {
      if t.id == idle.id {
        return;
      }
      if head != null {
        tail.nextTcb := t;
        tail := t;
      } else {
        head := t;
        tail := t;
      }
      queue := queue + [t];
    }
  }

  class MySemaphore {
    var val: int
    var head: Tcb?
    var tail: Tcb?
    ghost var queue: seq<Tcb>

    ghost predicate Linked(q: seq<Tcb>)
      reads q`nextSem
    {
      forall i: nat :: i < |q| ==> q[i].nextSem == At(q, i + 1)
    }

    ghost predicate Valid()
      reads this`head, this`tail, this`queue, queue`nextSem
    {
      Distinct(queue) && Linked(queue) && head == At(queue, 0) && (queue != [] ==> tail == At(queue, |queue| - 1))
    }

    constructor (init: nat)
      ensures Valid() && queue == [] && val == init
    {
      val, head, tail, queue := init, null, null, [];
    }

    // The part of block that queues the thread.
    method Enqueue(t: Tcb)
      requires Valid() && t !in queue && t.nextSem == null
      modifies this`head, this`tail, this`queue, Last(queue)`nextSem
      ensures Valid() && queue == old(queue) + [t] && t.nextSem == null
    {
      if head != null {
        tail.nextSem := t;
        tail := t;
      } else {
        head := t;
        tail := t;
      }
      queue := queue + [t];
    }

    // The part of unblock that takes the first waiter off the queue; null when there is none.
    method Dequeue() returns (t: Tcb?)
      requires Valid()
      modifies this`head, this`tail, this`queue, First(queue)`nextSem
      ensures Valid() && t == At(old(queue), 0)
      ensures t == null ==> queue == [] && old(queue) == []
      ensures t != null ==> queue == old(queue)[1..] && t.nextSem == null
    {
      if head == null {
        tail := null;
        return null;
      }
      t := head;
      head := head.nextSem;
      t.nextSem := null;
      ghost var rest := queue[1..];
      assert forall i: nat :: i < |rest| ==> rest[i] == queue[i + 1] && rest[i] != t;
      queue := rest;
    }
  }
}
