// The thread kernel (tcb.cpp, mySemaphore.cpp and the trap handler of riscv.cpp) on linked thread control
// blocks, proved against the functions of KernelSpec.
module Kernel {
  import opened SleepList
  import opened SemaphoreSpec
  import opened KernelSpec
  import opened KernelPlaces
  import opened KernelSteps
  import opened KernelRuns
  import opened Threads

  class Kernel {
    const idle: Tcb
    const scheduler: Scheduler
    var running: Tcb
    var sleepHead: Tcb?
    var timeSliceCounter: nat
    ghost var all: map<nat, Tcb>
    ghost var semaphores: map<nat, MySemaphore>
    ghost var nappers: seq<Tcb>
    ghost var unstarted: set<nat>

    // The kernel when its first thread starts to run, with the idle thread beside it.
    constructor (idleId: nat, first: nat, slice: nat)
      requires idleId != first
      ensures Valid() && View() == Boot(idleId, first, slice)
    {
      var i := new Tcb(idleId, slice);
      var f := new Tcb(first, slice);
      var s := new Scheduler(i);
      idle, scheduler, running, sleepHead, timeSliceCounter := i, s, f, null, 0;
      all, semaphores, nappers, unstarted := map[idleId := i, first := f], map[], [], {};
      new;
      hide *;
      BootValid(i, f);
      BootView(i, f);
    }

    lemma BootValid(i: Tcb, f: Tcb)
      requires i.id != f.id && idle == i && scheduler.idle == i && scheduler.Valid() && scheduler.queue == [] &&
               running == f && sleepHead == null
      requires all == map[i.id := i, f.id := f] && semaphores == map[] && nappers == []
      requires i.nextTcb == null && f.nextTcb == null && i.nextSem == null && f.nextSem == null
      ensures Valid()
    {
      assert all.Values == {i, f} by {
        assert all[i.id] == i && all[f.id] == f;
      }
      assert Known(i) && Known(f);
      hide Scheduler.Valid, Distinct;
      assert SleepersOk() && SemaphoresOk();
      assert Table() && AllKnown(scheduler.queue) && OthersNull();
      hide *;
      MakeValid();
    }

    lemma BootView(i: Tcb, f: Tcb)
      requires i.id != f.id && idle == i && scheduler.queue == [] && running == f && timeSliceCounter == 0
      requires all == map[i.id := i, f.id := f] && semaphores == map[] && nappers == [] && unstarted == {}
      requires !i.finished && !i.blocked && !i.sleeping && !f.finished && !f.blocked && !f.sleeping &&
               i.timeSlice == f.timeSlice
      ensures View() == Boot(i.id, f.id, i.timeSlice)
    {
      assert ThreadMap() == Boot(i.id, f.id, i.timeSlice).threads;
      assert SemMap() == map[];
    }

    // ----- the state as a value

    ghost function ThreadOf(t: Tcb): Thread
      reads t`finished, t`blocked, t`sleeping
    {
      Thread(t.finished, t.blocked, t.sleeping, t.timeSlice)
    }

    ghost function ThreadMap(): map<nat, Thread>
      reads this`all, all.Values`finished, all.Values`blocked, all.Values`sleeping
    {
      map i | i in all :: ThreadOf(all[i])
    }

    ghost function SemMap(): map<nat, Sem>
      reads this`semaphores, semaphores.Values`val, semaphores.Values`queue
    {
      map s | s in semaphores :: Sem(semaphores[s].val, Numbers(semaphores[s].queue))
    }

    ghost function NapList(q: seq<Tcb>): (l: seq<Nap>)
      reads q`sleepLeft
      ensures |l| == |q| && forall i :: 0 <= i < |q| ==> l[i] == Nap(q[i].id, q[i].sleepLeft)
    {
      if q == [] then [] else [Nap(q[0].id, q[0].sleepLeft)] + NapList(q[1..])
    }

    ghost function View(): KState
      reads this`all, all.Values`finished, all.Values`blocked, all.Values`sleeping
      reads this`semaphores, semaphores.Values`val, semaphores.Values`queue
      reads this`nappers, nappers`sleepLeft, this`unstarted, this`running, this`timeSliceCounter, scheduler`queue
    {
      KState(idle.id, ThreadMap(), unstarted, Numbers(scheduler.queue), SemMap(), NapList(nappers), running.id,
        timeSliceCounter)
    }

    // ----- soundness of the links

    // Threads are known by their numbers.
    ghost predicate Table()
      reads this`all, this`running
    {
      && (forall i :: i in all ==> all[i].id == i)
      && Known(idle) && Known(running) && scheduler.idle == idle
    }

    ghost predicate Known(t: Tcb)
      reads this`all
    {
      t.id in all && all[t.id] == t && t in all.Values
    }

    ghost predicate AllKnown(q: seq<Tcb>)
      reads this`all
    {
      forall i: nat :: i < |q| ==> Known(q[i])
    }

    ghost predicate SchedulerOk()
      reads this`all, scheduler, all.Values`nextTcb
    {
      AllKnown(scheduler.queue) && scheduler.Valid() && OthersNull()
    }

    // Thread t waits for some semaphore.
    ghost predicate Waits(t: Tcb)
      reads this`semaphores, semaphores.Values`queue
    {
      exists s :: s in semaphores && t in semaphores[s].queue
    }

    ghost predicate SemaphoreOk(s: nat)
      requires s in semaphores
      reads this`all, this`semaphores, semaphores.Values`head, semaphores.Values`tail, semaphores.Values`queue,
            all.Values`nextSem
    {
      AllKnown(semaphores[s].queue) && semaphores[s].Valid()
    }

    // Different semaphores are different objects, and nobody waits for two.
    ghost predicate SemaphoresApart()
      reads this`semaphores, semaphores.Values`queue
    {
      forall r, s :: r in semaphores && s in semaphores && r != s ==>
        semaphores[r] != semaphores[s] && forall t: Tcb :: t in semaphores[r].queue ==> t !in semaphores[s].queue
    }

    // Threads that wait for nothing are linked to nobody.
    ghost predicate OthersFree()
      reads this`all, this`semaphores, semaphores.Values`queue, all.Values`nextSem
    {
      forall i :: i in all && !Waits(all[i]) ==> all[i].nextSem == null
    }

    ghost predicate SemaphoresOk()
      reads this`all, this`semaphores, semaphores.Values`head, semaphores.Values`tail, semaphores.Values`queue,
            all.Values`nextSem
    {
      (forall s :: s in semaphores ==> SemaphoreOk(s)) && SemaphoresApart() && OthersFree()
    }

    ghost predicate SleepersOk()
      reads this`all, this`nappers, this`sleepHead, all.Values`nextSleep
    {
      && Distinct(nappers) && AllKnown(nappers) && sleepHead == At(nappers, 0)
      && (forall i: nat :: i < |nappers| ==> nappers[i].nextSleep == At(nappers, i + 1))
    }

    ghost predicate Valid()
      reads this, scheduler, all.Values, semaphores.Values
    {
      Table() && SchedulerOk() && SemaphoresOk() && SleepersOk()
    }

    // ----- what a step leaves alone

    twostate lemma ReadyKept()
      requires all == old(all) && unchanged(scheduler`head) && unchanged(scheduler`tail) && unchanged(scheduler`queue)
      requires unchanged(all.Values`nextTcb) && old(AllKnown(scheduler.queue) && scheduler.Valid() && OthersNull())
      ensures AllKnown(scheduler.queue) && scheduler.Valid() && OthersNull()
    {
      ReadyIn();
      hide AllKnown, Scheduler.Valid, OthersNull;
    }

    twostate lemma ReadyIn()
      requires all == old(all) && unchanged(scheduler`queue) && old(AllKnown(scheduler.queue))
      ensures forall t: Tcb :: t in scheduler.queue ==> t in all.Values
    {
    }

    twostate lemma SemsKept()
      requires all == old(all) && semaphores == old(semaphores) && unchanged(semaphores.Values`val)
      requires unchanged(semaphores.Values`head) && unchanged(semaphores.Values`tail) &&
               unchanged(semaphores.Values`queue)
      requires unchanged(all.Values`nextSem) && old(SemaphoresOk())
      ensures SemaphoresOk() && SemMap() == old(SemMap())
    {
      hide SemaphoresOk, SemMap;
    }

    twostate lemma NapsKept()
      requires all == old(all) && nappers == old(nappers) && sleepHead == old(sleepHead)
      requires unchanged(all.Values`nextSleep) && unchanged(all.Values`sleepLeft) && old(SleepersOk())
      ensures SleepersOk() && NapList(nappers) == old(NapList(nappers))
    {
      NappersIn();
      hide SleepersOk;
    }

    twostate lemma NappersIn()
      requires all == old(all) && nappers == old(nappers) && old(SleepersOk())
      ensures forall t: Tcb :: t in nappers ==> t in all.Values
    {
    }

    twostate lemma FlagsKept()
      requires all == old(all) && unchanged(all.Values`finished) && unchanged(all.Values`blocked)
      requires unchanged(all.Values`sleeping)
      ensures ThreadMap() == old(ThreadMap())
    {
      hide ThreadMap;
    }

    // ----- the scheduler

    lemma QueueNumbers(q: seq<Tcb>, t: Tcb)
      requires Table() && Known(t) && AllKnown(q)
      ensures t in q <==> t.id in Numbers(q)
    {
      if t.id in Numbers(q) {
        var i :| 0 <= i < |q| && Numbers(q)[i] == t.id;
        assert q[i] in q;
      }
      if t in q {
        var i :| 0 <= i < |q| && q[i] == t;
        assert Numbers(q)[i] == t.id;
      }
    }

    // The parts of Valid for the scheduler, and the others by name.
    lemma Parts()
      requires Valid()
      ensures Table() && SchedulerOk() && SemaphoresOk() && SleepersOk()
      ensures AllKnown(scheduler.queue) && scheduler.Valid() && OthersNull() && scheduler.idle == idle
      ensures Known(idle) && Known(running)
    {
    }

    // Threads that are not ready are linked to nobody.
    ghost predicate OthersNull()
      reads this`all, scheduler`queue, all.Values`nextTcb
    {
      forall i :: i in all && all[i] !in scheduler.queue ==> all[i].nextTcb == null
    }

    lemma MakeValid()
      requires Table() && AllKnown(scheduler.queue) && scheduler.Valid() && OthersNull() && SemaphoresOk() &&
               SleepersOk()
      ensures Valid()
    {
    }

    lemma ViewIs()
      ensures View() == KState(idle.id, ThreadMap(), unstarted, Numbers(scheduler.queue), SemMap(), NapList(nappers),
              running.id, timeSliceCounter)
    {
    }

    lemma OtherNull(t: Tcb)
      requires OthersNull() && Known(t) && t !in scheduler.queue
      ensures t.nextTcb == null
    {
    }

    // One more thread at the end of the queue.
    lemma KnownMore(q: seq<Tcb>, t: Tcb)
      requires AllKnown(q) && Known(t)
      ensures AllKnown(q + [t]) && Last(q) <= all.Values
    {
    }

    lemma KnownFewer(q: seq<Tcb>)
      requires AllKnown(q) && q != []
      ensures AllKnown(q[1..]) && Known(q[0]) && First(q) <= all.Values
    {
    }

    method Put(t: Tcb)
      requires Valid() && Known(t) && t !in scheduler.queue
      modifies scheduler`head, scheduler`tail, scheduler`queue, Last(scheduler.queue)`nextTcb
      ensures Valid() && View() == KernelSpec.Put(old(View()), t.id)
      ensures scheduler.queue == if t == idle then old(scheduler.queue) else old(scheduler.queue) + [t]
    {
      hide *;
      ghost var q := scheduler.queue;
      Parts();
      ViewIs();
      OtherNull(t);
      KnownMore(q, t);
      NumbersAppend(q, t);
      SameThread(t);
      scheduler.Put(t);
      SemsKept();
      NapsKept();
      FlagsKept();
      OthersNullPut(t);
      TableKept();
      MakeValid();
      ViewIs();
      PutIs(old(View()), t.id);
    }

    lemma SameThread(t: Tcb)
      requires Table() && Known(t)
      ensures t.id == idle.id <==> t == idle
    {
    }

    twostate lemma OthersNullPut(t: Tcb)
      requires old(OthersNull()) && all == old(all)
      requires scheduler.queue == old(scheduler.queue) ||
               (scheduler.queue == old(scheduler.queue) + [t] && t.nextTcb == null)
      requires forall x: Tcb :: x in all.Values && x !in old(Last(scheduler.queue)) ==> x.nextTcb == old(x.nextTcb)
      ensures OthersNull()
    {
      forall i | i in all && all[i] !in scheduler.queue
        ensures all[i].nextTcb == null
      {
        assert all[i] in all.Values;
      }
    }

    lemma PutIs(k: KState, t: nat)
      ensures KernelSpec.Put(k, t) == if t == k.idle then k else k.(ready := k.ready + [t])
    {
    }

    method Get()
      requires Valid()
      modifies this`running, scheduler`head, scheduler`tail, scheduler`queue, First(scheduler.queue)`nextTcb
      ensures Valid() && View() == KernelSpec.Get(old(View()))
    {
      hide *;
      Parts();
      ViewIs();
      KnownFirst(scheduler.queue);
      running := scheduler.Get();
      SemsKept();
      NapsKept();
      FlagsKept();
      GotNext(running);
      TableKept();
      MakeValid();
      GetView(running);
    }

    twostate lemma GetView(t: Tcb)
      requires ThreadMap() == old(ThreadMap()) && SemMap() == old(SemMap()) && NapList(nappers) == old(NapList(nappers))
      requires unstarted == old(unstarted) && timeSliceCounter == old(timeSliceCounter) && running == t
      requires Numbers(old(scheduler.queue)) == [] ==> Numbers(scheduler.queue) == [] && t == idle
      requires Numbers(old(scheduler.queue)) != [] ==>
                 Numbers(scheduler.queue) == Numbers(old(scheduler.queue))[1..] &&
                   t.id == Numbers(old(scheduler.queue))[0]
      ensures View() == KernelSpec.Get(old(View()))
    {
      hide ThreadMap, SemMap, NapList, Numbers;
    }

    lemma KnownFirst(q: seq<Tcb>)
      requires AllKnown(q)
      ensures First(q) <= all.Values
    {
    }

    // Thread t was taken off the queue, or it is the idle thread and the queue was empty.
    twostate lemma GotNext(t: Tcb)
      requires old(OthersNull()) && old(AllKnown(scheduler.queue)) && all == old(all) && Known(idle)
      requires old(scheduler.queue) == [] ==> t == idle && scheduler.queue == []
      requires old(scheduler.queue) != [] ==>
               t == old(scheduler.queue)[0] && scheduler.queue == old(scheduler.queue)[1..] && t.nextTcb == null
      requires forall x: Tcb :: x in all.Values && x !in old(First(scheduler.queue)) ==> x.nextTcb == old(x.nextTcb)
      ensures OthersNull() && AllKnown(scheduler.queue) && Known(t)
      ensures Numbers(old(scheduler.queue)) == [] ==> Numbers(scheduler.queue) == [] && t == idle
      ensures Numbers(old(scheduler.queue)) != [] ==>
                Numbers(scheduler.queue) == Numbers(old(scheduler.queue))[1..] &&
                  t.id == Numbers(old(scheduler.queue))[0]
    {
      if old(scheduler.queue) == [] {
        NoEnds(old(scheduler.queue));
        OthersNullSame();
      } else {
        OthersNullGet(t);
        KnownFewer(old(scheduler.queue));
        NumbersTail(old(scheduler.queue));
      }
    }

    twostate lemma TableKept()
      requires old(Table()) && all == old(all) && Known(running)
      ensures Table()
    {
    }

    twostate lemma OthersNullGet(t: Tcb)
      requires old(OthersNull()) && all == old(all) && old(scheduler.queue) != []
      requires t == old(scheduler.queue)[0] && scheduler.queue == old(scheduler.queue)[1..] && t.nextTcb == null
      requires forall x: Tcb :: x in all.Values && x !in old(First(scheduler.queue)) ==> x.nextTcb == old(x.nextTcb)
      ensures OthersNull()
    {
      forall i | i in all && all[i] !in scheduler.queue
        ensures all[i].nextTcb == null
      {
        assert all[i] in all.Values;
        assert old(scheduler.queue) == [t] + scheduler.queue;
      }
    }

    twostate lemma OthersNullSame()
      requires old(OthersNull()) && all == old(all) && scheduler.queue == old(scheduler.queue)
      requires forall x: Tcb :: x in all.Values ==> x.nextTcb == old(x.nextTcb)
      ensures OthersNull()
    {
      assert forall i :: i in all ==> all[i] in all.Values;
    }

    lemma QueueKnown()
      requires Valid()
      ensures forall t: Tcb :: t in scheduler.queue ==> t in all.Values
      ensures Last(scheduler.queue) <= all.Values && First(scheduler.queue) <= all.Values
      ensures Known(running) && running in all.Values
    {
    }

    lemma RunningView()
      requires Valid()
      ensures running.id in View().threads && View().threads[running.id] == ThreadOf(running)
      ensures Known(running) && View().running == running.id
    {
    }

    // TCB::dispatch
    method Dispatch()
      requires Valid() && running !in scheduler.queue
      modifies this`running, scheduler`head, scheduler`tail, scheduler`queue, all.Values`nextTcb
      ensures Valid() && View() == KernelSpec.Dispatch(old(View()))
    {
      QueueKnown();
      RunningView();
      hide SemaphoresOk, SleepersOk, SchedulerOk, ThreadMap, SemMap, NapList, Numbers;
      var old' := running;
      if !old'.finished && !old'.blocked && !old'.sleeping {
        Put(old');
      }
      QueueKnown();
      Get();
    }

    // The end of most system calls.
    method Leave()
      requires Valid() && running !in scheduler.queue
      modifies this`running, this`timeSliceCounter, scheduler`head, scheduler`tail, scheduler`queue, all.Values`nextTcb
      ensures Valid() && View() == KernelSpec.Leave(old(View()))
    {
      hide *;
      Parts();
      ViewIs();
      HeadIs();
      LeaveIs(View());
      if scheduler.head != null {
        ResetCounter();
        Dispatch();
      }
    }

    lemma HeadIs()
      requires scheduler.Valid()
      ensures scheduler.head == null <==> scheduler.queue == []
      ensures scheduler.queue == [] <==> Numbers(scheduler.queue) == []
    {
    }

    lemma LeaveIs(k: KState)
      ensures KernelSpec.Leave(k) == if k.ready == [] then k else KernelSpec.Dispatch(k.(counter := 0))
    {
    }

    // ----- flags

    twostate lemma FlagsChanged(t: Tcb)
      requires old(Table()) && all == old(all) && Known(t)
      requires forall x: Tcb :: x in all.Values && x != t ==>
                 x.finished == old(x.finished) && x.blocked == old(x.blocked) && x.sleeping == old(x.sleeping)
      ensures t.id in old(ThreadMap()) && old(ThreadMap())[t.id] == old(ThreadOf(t))
      ensures ThreadMap() == old(ThreadMap())[t.id := ThreadOf(t)]
    {
      forall i | i in all && i != t.id
        ensures ThreadOf(all[i]) == old(ThreadOf(all[i]))
      {
        assert all[i] in all.Values && all[i] != t;
      }
    }

    method SetBlocked(t: Tcb, b: bool)
      requires Valid() && Known(t)
      modifies t`blocked
      ensures Valid() && View() == KernelSpec.SetBlocked(old(View()), t.id, b)
    {
      hide *;
      Parts();
      ViewIs();
      FlagsOf(t);
      t.blocked := b;
      ReadyKept();
      SemsKept();
      NapsKept();
      FlagsChanged(t);
      FlagsOf(t);
      TableKept();
      MakeValid();
      ViewIs();
      SetBlockedIs(old(View()), t.id, b);
    }

    method SetSleeping(t: Tcb, b: bool)
      requires Valid() && Known(t)
      modifies t`sleeping
      ensures Valid() && View() == KernelSpec.SetSleeping(old(View()), t.id, b)
    {
      hide *;
      Parts();
      ViewIs();
      FlagsOf(t);
      t.sleeping := b;
      ReadyKept();
      SemsKept();
      NapsKept();
      FlagsChanged(t);
      FlagsOf(t);
      TableKept();
      MakeValid();
      ViewIs();
      SetSleepingIs(old(View()), t.id, b);
    }

    method SetFinished(t: Tcb)
      requires Valid() && Known(t)
      modifies t`finished
      ensures Valid() && View() == KernelSpec.SetFinished(old(View()), t.id)
    {
      hide *;
      Parts();
      ViewIs();
      FlagsOf(t);
      t.finished := true;
      ReadyKept();
      SemsKept();
      NapsKept();
      FlagsChanged(t);
      FlagsOf(t);
      TableKept();
      MakeValid();
      ViewIs();
      SetFinishedIs(old(View()), t.id);
    }

    lemma FlagsOf(t: Tcb)
      ensures ThreadOf(t) == Thread(t.finished, t.blocked, t.sleeping, t.timeSlice)
    {
    }

    lemma SetBlockedIs(k: KState, t: nat, b: bool)
      requires t in k.threads
      ensures KernelSpec.SetBlocked(k, t, b) == k.(threads := k.threads[t := k.threads[t].(blocked := b)])
    {
    }

    lemma SetSleepingIs(k: KState, t: nat, b: bool)
      requires t in k.threads
      ensures KernelSpec.SetSleeping(k, t, b) == k.(threads := k.threads[t := k.threads[t].(sleeping := b)])
    {
    }

    lemma SetFinishedIs(k: KState, t: nat)
      requires t in k.threads
      ensures KernelSpec.SetFinished(k, t) == k.(threads := k.threads[t := k.threads[t].(finished := true)])
    {
    }

    // ----- semaphores

    // Semaphore w.0 changed; w.1 did not.
    twostate lemma OtherSemaphore(w: (nat, nat))
      requires all == old(all) && semaphores == old(semaphores) && w.0 in semaphores && w.1 in semaphores && w.0 != w.1
      requires old(SemaphoreOk(w.1)) && old(SemaphoresApart())
      requires semaphores[w.1].queue == old(semaphores[w.1].queue)
      requires semaphores[w.1].head == old(semaphores[w.1].head) && semaphores[w.1].tail == old(semaphores[w.1].tail)
      requires forall x: Tcb :: x in all.Values && x !in old(semaphores[w.0].queue) ==> x.nextSem == old(x.nextSem)
      ensures SemaphoreOk(w.1)
    {
      ghost var q := semaphores[w.1].queue;
      forall i: nat | i < |q|
        ensures q[i].nextSem == old(q[i].nextSem)
      {
        assert Known(q[i]) && q[i] in q;
      }
    }

    // Only the queue of s changed: at either end, by a thread that waits for nothing otherwise.
    twostate lemma QueueChanged(s: nat)
      requires old(SemaphoresOk()) && all == old(all) && semaphores == old(semaphores) && s in semaphores
      requires semaphores[s].Valid() && AllKnown(semaphores[s].queue)
      requires forall r :: r in semaphores && r != s ==> semaphores[r].queue == old(semaphores[r].queue)
      requires forall r :: r in semaphores && r != s ==>
               semaphores[r].head == old(semaphores[r].head) && semaphores[r].tail == old(semaphores[r].tail)
      requires forall x: Tcb :: x in all.Values && x !in old(semaphores[s].queue) ==> x.nextSem == old(x.nextSem)
      requires forall t: Tcb :: t in semaphores[s].queue ==> t in old(semaphores[s].queue) || !old(Waits(t))
      requires forall t: Tcb :: t in old(semaphores[s].queue) ==> t in semaphores[s].queue || t.nextSem == null
      ensures SemaphoresOk()
    {
      forall r | r in semaphores
        ensures SemaphoreOk(r)
      {
        if r != s {
          OtherSemaphore((s, r));
        }
      }
      QueuesApart(s);
      WaitersKept(s);
    }

    twostate lemma QueuesApart(s: nat)
      requires old(SemaphoresApart()) && all == old(all) && semaphores == old(semaphores) && s in semaphores &&
               AllKnown(semaphores[s].queue)
      requires forall r :: r in semaphores && r != s ==> semaphores[r].queue == old(semaphores[r].queue)
      requires forall t: Tcb :: t in semaphores[s].queue ==> t in old(semaphores[s].queue) || !old(Waits(t))
      ensures SemaphoresApart()
    {
    }

    twostate lemma WaitersKept(s: nat)
      requires old(OthersFree()) && all == old(all) && semaphores == old(semaphores) && s in semaphores
      requires forall r :: r in semaphores && r != s ==> semaphores[r].queue == old(semaphores[r].queue)
      requires forall x: Tcb :: x in all.Values && x !in old(semaphores[s].queue) ==> x.nextSem == old(x.nextSem)
      requires forall t: Tcb :: t in old(semaphores[s].queue) ==> t in semaphores[s].queue || t.nextSem == null
      ensures OthersFree()
    {
      forall i | i in all && !Waits(all[i])
        ensures all[i].nextSem == null
      {
        assert all[i] in all.Values;
        if all[i] !in old(semaphores[s].queue) {
          assert !old(Waits(all[i]));
        }
      }
    }

    // Only the value and the queue of s changed.
    twostate lemma SemMapChanged(s: nat)
      requires semaphores == old(semaphores) && s in semaphores
      requires forall r :: r in semaphores && r != s ==>
               semaphores[r].queue == old(semaphores[r].queue) && semaphores[r].val == old(semaphores[r].val)
      ensures s in old(SemMap()) && old(SemMap())[s] == Sem(old(semaphores[s].val), Numbers(old(semaphores[s].queue)))
      ensures SemMap() == old(SemMap())[s := Sem(semaphores[s].val, Numbers(semaphores[s].queue))]
    {
    }

    // Thread t waits for nothing.
    lemma FreeThread(t: Tcb)
      requires SemaphoresOk() && Known(t) && !Waits(t)
      ensures t.nextSem == null && forall s :: s in semaphores ==> t !in semaphores[s].queue
    {
    }

    lemma SemaphoreParts(s: nat)
      requires SemaphoresOk() && s in semaphores
      ensures semaphores[s].Valid() && AllKnown(semaphores[s].queue) && semaphores[s] in semaphores.Values
      ensures forall r :: r in semaphores && r != s ==> semaphores[r] != semaphores[s]
    {
      assert SemaphoreOk(s);
    }

    // The running thread joins the queue of s.
    method Enqueue(s: MySemaphore, ghost sid: nat)
      requires Valid() && sid in semaphores && semaphores[sid] == s && !Waits(running)
      modifies s`head, s`tail, s`queue, Last(s.queue)`nextSem
      ensures Valid() && s.queue == old(s.queue) + [running]
      ensures View() == old(View()).(sems := old(View()).sems[sid := Sem(s.val, Numbers(old(s.queue)) + [running.id])])
    {
      hide *;
      Parts();
      ViewIs();
      SemaphoreParts(sid);
      FreeThread(running);
      KnownMore(s.queue, running);
      NumbersAppend(s.queue, running);
      LastIn(s.queue);
      s.Enqueue(running);
      ReadyKept();
      NapsKept();
      FlagsKept();
      QueueChanged(sid);
      SemMapChanged(sid);
      TableKept();
      MakeValid();
      ViewIs();
    }

    lemma LastIn(q: seq<Tcb>)
      ensures forall t: Tcb :: t in Last(q) || t in First(q) ==> t in q
    {
    }

    // The first thread leaves the queue of s.
    method Dequeue(s: MySemaphore, ghost sid: nat) returns (t: Tcb?)
      requires Valid() && sid in semaphores && semaphores[sid] == s
      modifies s`head, s`tail, s`queue, First(s.queue)`nextSem
      ensures Valid() && t == At(old(s.queue), 0)
      ensures t == null ==> View() == old(View()) && old(s.queue) == []
      ensures t != null ==> Known(t) && old(s.queue) != [] && t == old(s.queue)[0]
      ensures t != null ==>
              View() == old(View()).(sems := old(View()).sems[sid := Sem(s.val, Numbers(old(s.queue))[1..])])
      ensures t != null ==> Numbers(old(s.queue))[0] == t.id
    {
      hide *;
      Parts();
      ViewIs();
      SemaphoreParts(sid);
      FirstIs(s.queue);
      LastIn(s.queue);
      ghost var q := s.queue;
      t := s.Dequeue();
      TailParts(q, s.queue);
      ReadyKept();
      NapsKept();
      FlagsKept();
      QueueChanged(sid);
      SemMapChanged(sid);
      TableKept();
      MakeValid();
      ViewIs();
      SameUpdate(old(SemMap()), sid);
    }

    lemma FirstIs(q: seq<Tcb>)
      requires AllKnown(q)
      ensures At(q, 0) == if q == [] then null else q[0]
      ensures First(q) <= all.Values && (q != [] ==> Known(q[0]) && First(q) == {q[0]})
    {
    }

    lemma TailParts(q: seq<Tcb>, r: seq<Tcb>)
      requires AllKnown(q) && r == if q == [] then [] else q[1..]
      ensures AllKnown(r) && forall t: Tcb :: t in r ==> t in q
      ensures forall t: Tcb :: t in q ==> t in r || t == q[0]
      ensures q != [] ==> Numbers(r) == Numbers(q)[1..] && Numbers(q)[0] == q[0].id
    {
      if q != [] {
        NumbersTail(q);
        assert q == [q[0]] + r;
      }
    }

    lemma SameUpdate(m: map<nat, Sem>, s: nat)
      requires s in m
      ensures m[s := m[s]] == m
    {
    }

    // mySemaphore::unblock
    method Unblock(s: MySemaphore, ghost sid: nat)
      requires Valid() && sid in semaphores && semaphores[sid] == s
      requires s.queue != [] ==> s.queue[0] !in scheduler.queue
      modifies s`head, s`tail, s`queue, First(s.queue)`nextSem, First(s.queue)`blocked
      modifies scheduler`head, scheduler`tail, scheduler`queue, all.Values`nextTcb
      ensures Valid() && View() == KernelSpec.Unblock(old(View()), sid)
    {
      hide *;
      Parts();
      SemaphoreParts(sid);
      FirstIs(s.queue);
      ViewSem(sid);
      var t := Dequeue(s, sid);
      UnblockIs(old(View()), sid);
      if t != null {
        SetBlocked(t, false);
        Parts();
        QueueKnown();
        Put(t);
      }
    }

    // Semaphore s in the state as a value.
    lemma ViewSem(s: nat)
      requires s in semaphores
      ensures s in View().sems && View().sems[s] == Sem(semaphores[s].val, Numbers(semaphores[s].queue))
      ensures semaphores[s].queue == [] <==> Numbers(semaphores[s].queue) == []
    {
    }

    lemma UnblockIs(k: KState, s: nat)
      requires s in k.sems
      ensures var q := k.sems[s].queue;
              KernelSpec.Unblock(k, s) ==
                if q == [] then k
                else
                  var k1 := k.(sems := k.sems[s := Sem(k.sems[s].val, q[1..])]);
                  KernelSpec.Put(KernelSpec.SetBlocked(k1, q[0], false), q[0])
    {
    }

    // mySemaphore::signal
    method Signal(s: MySemaphore, ghost sid: nat)
      requires Valid() && sid in semaphores && semaphores[sid] == s
      requires s.queue != [] ==> s.queue[0] !in scheduler.queue
      modifies s, First(s.queue)`nextSem, First(s.queue)`blocked
      modifies scheduler`head, scheduler`tail, scheduler`queue, all.Values`nextTcb
      ensures Valid() && View() == KernelSpec.Signal(old(View()), sid)
    {
      hide *;
      Parts();
      ViewIs();
      SemaphoreParts(sid);
      ViewSem(sid);
      s.val := s.val + 1;
      SemMapChanged(sid);
      MakeValid();
      ViewIs();
      SignalStep(old(View()), sid);
      if s.val <= 0 {
        Unblock(s, sid);
      }
    }

    lemma SignalStep(k: KState, s: nat)
      requires s in k.sems
      ensures var k1 := k.(sems := k.sems[s := Sem(k.sems[s].val + 1, k.sems[s].queue)]);
              KernelSpec.Signal(k, s) == if k.sems[s].val + 1 <= 0 then KernelSpec.Unblock(k1, s) else k1
    {
    }

    // mySemaphore::wait
    method Wait(s: MySemaphore, ghost sid: nat)
      requires Valid() && sid in semaphores && semaphores[sid] == s && !Waits(running) && running !in scheduler.queue
      modifies this`running, s, Last(s.queue)`nextSem, running`blocked
      modifies scheduler`head, scheduler`tail, scheduler`queue, all.Values`nextTcb
      ensures Valid() && View() == KernelSpec.Wait(old(View()), sid)
    {
      hide *;
      Parts();
      ViewIs();
      SemaphoreParts(sid);
      ViewSem(sid);
      s.val := s.val - 1;
      SemMapChanged(sid);
      MakeValid();
      ViewIs();
      WaitStep(old(View()), sid);
      if s.val < 0 {
        Block(s, sid);
      }
    }

    // mySemaphore::block
    method Block(s: MySemaphore, ghost sid: nat)
      requires Valid() && sid in semaphores && semaphores[sid] == s && !Waits(running) && running !in scheduler.queue
      modifies this`running, s`head, s`tail, s`queue, Last(s.queue)`nextSem, running`blocked
      modifies scheduler`head, scheduler`tail, scheduler`queue, all.Values`nextTcb
      ensures Valid()
      ensures sid in old(View()).sems
      ensures var k := old(View());
              View() == KernelSpec.Dispatch(KernelSpec.SetBlocked(
                k.(sems := k.sems[sid := Sem(k.sems[sid].val, k.sems[sid].queue + [k.running])]), k.running, true))
    {
      hide *;
      Parts();
      ViewIs();
      ViewSem(sid);
      Enqueue(s, sid);
      SetBlocked(running, true);
      Dispatch();
    }

    lemma WaitStep(k: KState, s: nat)
      requires s in k.sems
      ensures var v := k.sems[s].val - 1;
              var k1 := k.(sems := k.sems[s := Sem(v, k.sems[s].queue)]);
              KernelSpec.Wait(k, s) == if v < 0 then KernelSpec.Dispatch(KernelSpec.SetBlocked(
                k1.(sems := k1.sems[s := Sem(v, k.sems[s].queue + [k.running])]), k.running, true)) else k1
    {
      var k1 := k.(sems := k.sems[s := Sem(k.sems[s].val - 1, k.sems[s].queue)]);
      assert k1.sems[s := Sem(k.sems[s].val - 1, k.sems[s].queue + [k.running])] ==
             k.sems[s := Sem(k.sems[s].val - 1, k.sems[s].queue + [k.running])];
    }

    // Who is on which queue, from where every thread is.
    lemma QueuesDisjoint(place: Places)
      requires Valid() && Placed(View(), place)
      ensures running !in scheduler.queue && (running != idle ==> !Waits(running) && running !in nappers)
      ensures forall s :: s in semaphores && semaphores[s].queue != [] ==> semaphores[s].queue[0] !in scheduler.queue
      ensures nappers != [] ==> nappers[0] !in scheduler.queue && nappers[0] != idle
    {
      Parts();
      ViewIs();
      ghost var k := View();
      PlacedParts(k, place);
      NapNumbers(nappers);
      hide Valid, View, ThreadMap, SemMap, NapList, Placed, SchedulerOk, Scheduler.Valid, NapsOk, QueuesOk;
      SleepersKnown();
      QueueNumbers(scheduler.queue, running);
      RunningApart(k, place);
      forall s | s in semaphores && semaphores[s].queue != []
        ensures semaphores[s].queue[0] !in scheduler.queue
      {
        WaiterApart(place, s);
      }
      if nappers != [] {
        SleeperApart(k, place);
        KnownFewer(nappers);
        NapHead();
        QueueNumbers(scheduler.queue, nappers[0]);
      }
      if running != idle {
        QueueNumbers(nappers, running);
        SameThread(running);
        RunningWaits(place);
      }
    }

    lemma NapHead()
      requires nappers != []
      ensures NapList(nappers) != [] && NapList(nappers)[0].id == nappers[0].id
    {
    }

    lemma SleepersKnown()
      requires SleepersOk()
      ensures AllKnown(nappers)
    {
    }

    lemma NapNumbers(q: seq<Tcb>)
      ensures Ids(NapList(q)) == Numbers(q)
    {
    }

    lemma RunningApart(k: KState, place: Places)
      requires ReadyOk(k, place) && RunningOk(k, place) && FlagsOk(k, place) && NapsOk(k, place)
      ensures k.running !in k.ready && (k.running != k.idle ==> k.running !in Ids(k.naps))
    {
      assert In(place, k.running, Running) <==> k.running != k.idle;
      if k.running == k.idle {
        assert k.idle !in place;
      }
    }

    lemma SleeperApart(k: KState, place: Places)
      requires ReadyOk(k, place) && NapsOk(k, place) && FlagsOk(k, place) && k.naps != []
      ensures k.naps[0].id !in k.ready && k.naps[0].id != k.idle
    {
      assert Ids(k.naps)[0] in Ids(k.naps);
      assert In(place, k.naps[0].id, Sleeping);
    }

    lemma WaiterApart(place: Places, s: nat)
      requires Table() && AllKnown(scheduler.queue) && SemaphoresOk() && s in semaphores && semaphores[s].queue != []
      requires ReadyOk(View(), place) && QueuesOk(View(), place)
      ensures semaphores[s].queue[0] !in scheduler.queue
    {
      ghost var t := semaphores[s].queue[0];
      SemaphoreParts(s);
      ViewSem(s);
      ViewIs();
      hide View, SemaphoresOk, Scheduler.Valid;
      assert Known(t);
      QueueNumbers(scheduler.queue, t);
      assert Numbers(semaphores[s].queue)[0] == t.id;
      assert t.id in Numbers(semaphores[s].queue);
      assert In(place, t.id, Waiting(s));
    }

    lemma RunningWaits(place: Places)
      requires Table() && SemaphoresOk() && running != idle && RunningOk(View(), place) && QueuesOk(View(), place)
      ensures !Waits(running)
    {
      SameThread(running);
      assert In(place, running.id, Running);
      forall s | s in semaphores
        ensures running !in semaphores[s].queue
      {
        SemaphoreParts(s);
        ViewSem(s);
        QueueNumbers(semaphores[s].queue, running);
        assert running.id in Numbers(semaphores[s].queue) ==> In(place, running.id, Waiting(s));
      }
    }

    // sem_closeWrapper: one signal for each number from the value up to 0; then the semaphore is deleted.
    method Close(s: MySemaphore, ghost sid: nat, ghost place: Places)
      requires Valid() && sid in semaphores && semaphores[sid] == s && Sound(View(), place)
      modifies this`semaphores, s, all.Values`nextSem, all.Values`blocked
      modifies scheduler`head, scheduler`tail, scheduler`queue, all.Values`nextTcb
      ensures Valid() && sid in old(View()).sems && View() == KernelSpec.Close(old(View()), sid)
    {
      hide *;
      ghost var k, j, p := View(), 0, place;
      ViewSem(sid);
      SignalsNone(k, sid);
      var i := s.val;
      while i <= 0
        invariant Valid() && semaphores == old(semaphores) && all == old(all) && Sound(View(), p)
        invariant i == old(s.val) + j && View() == Signals(k, sid, j) && (i > 1 ==> i == old(s.val))
        decreases 1 - i
      {
        SoundParts(View(), p);
        QueuesDisjoint(p);
        Parts();
        SemaphoreParts(sid);
        FirstIs(s.queue);
        ViewSem(sid);
        p := SignalSound(View(), p, sid);
        OneSignalMore(k, sid, j);
        Signal(s, sid);
        i, j := i + 1, j + 1;
      }
      CloseIs(k, sid);
      SignalsValue(k, sid, j);
      ViewSem(sid);
      NoWaiters(View(), p, sid);
      Delete(sid);
    }

    lemma SignalsNone(k: KState, s: nat)
      requires s in k.sems
      ensures Signals(k, s, 0) == k
    {
    }

    lemma CloseIs(k: KState, s: nat)
      requires s in k.sems
      ensures var k1 := Signals(k, s, if k.sems[s].val <= 0 then 1 - k.sems[s].val else 0);
              KernelSpec.Close(k, s) == k1.(sems := k1.sems - {s})
    {
    }

    ghost method Delete(s: nat)
      requires Valid() && s in semaphores && semaphores[s].queue == []
      modifies this`semaphores
      ensures Valid() && View() == old(View()).(sems := old(View()).sems - {s})
    {
      hide *;
      Parts();
      ViewIs();
      semaphores := semaphores - {s};
      ReadyKept();
      NapsKept();
      FlagsKept();
      Deleted(s);
      TableKept();
      MakeValid();
      ViewIs();
    }

    twostate lemma Deleted(s: nat)
      requires old(SemaphoresOk()) && s in old(semaphores) && old(semaphores[s].queue) == []
      requires all == old(all) && semaphores == old(semaphores) - {s}
      requires forall r :: r in semaphores ==>
               semaphores[r].queue == old(semaphores[r].queue) && semaphores[r].val == old(semaphores[r].val)
      requires forall r :: r in semaphores ==> semaphores[r].Valid() == old(semaphores[r].Valid())
      requires forall t: Tcb :: t in all.Values ==> t.nextSem == old(t.nextSem)
      ensures SemaphoresOk() && SemMap() == old(SemMap()) - {s}
    {
      hide MySemaphore.Valid, Numbers;
      forall r | r in semaphores
        ensures SemaphoreOk(r)
      {
        assert old(SemaphoreOk(r));
      }
      forall i | i in all && !Waits(all[i])
        ensures all[i].nextSem == null
      {
        assert all[i] in all.Values;
        assert forall r :: r in old(semaphores) ==> r == s || r in semaphores;
        assert !old(Waits(all[i]));
      }
    }

    // ----- sleeping

    // The loop of findPlaceToSleep: the thread behind which a sleeper of t ticks goes (null for the front),
    // and how many ticks of its own it gets; i is its position.
    method SearchPlace(t: nat) returns (place: Tcb?, relative: nat, ghost i: nat)
      requires Valid()
      ensures i <= |nappers| == |NapList(nappers)| && place == (if i == 0 then null else nappers[i - 1])
      ensures Insert(NapList(nappers), running.id, t) == InsertedAt(NapList(nappers), i, running.id, relative)
      ensures i < |nappers| ==> nappers[i].sleepLeft >= relative
    {
      hide *;
      Parts();
      ghost var l := NapList(nappers);
      relative := t;
      place := null;
      var ptr := sleepHead;
      i := 0;
      SearchStart(l, running.id, t);
      SleeperAt(0);
      while ptr != null
        invariant i <= |nappers| == |l| && ptr == At(nappers, i) && place == (if i == 0 then null else nappers[i - 1])
        invariant Searching(l, running.id, t, i, relative)
        decreases |nappers| - i
      {
        SleeperAt(i);
        if ptr.sleepLeft > relative {
          SearchEnds(l, running.id, t, i, relative);
          return;
        }
        if ptr.sleepLeft == relative {
          SearchEnds(l, running.id, t, i, relative);
          return ptr, 0, i + 1;
        }
        place := ptr;
        SearchOn(l, running.id, t, i, relative);
        relative := relative - ptr.sleepLeft;
        ptr := ptr.nextSleep;
        i := i + 1;
      }
      SleeperAt(i);
      SearchEnds(l, running.id, t, i, relative);
    }

    // findPlaceToSleep also stores the ticks in the running thread.
    method FindPlaceToSleep(t: nat) returns (place: Tcb?, ghost i: nat)
      requires Valid() && running !in nappers
      modifies running`sleepLeft
      ensures Valid() && i <= |nappers| == |NapList(nappers)| && place == (if i == 0 then null else nappers[i - 1])
      ensures NapList(nappers) == old(NapList(nappers)) && View() == old(View())
      ensures Insert(NapList(nappers), running.id, t) == InsertedAt(NapList(nappers), i, running.id, running.sleepLeft)
      ensures i < |nappers| ==> nappers[i].sleepLeft >= running.sleepLeft
    {
      hide *;
      Parts();
      ViewIs();
      var relative;
      place, relative, i := SearchPlace(t);
      running.sleepLeft := relative;
      NapsUnmoved(running);
      MakeValid();
      ViewIs();
    }

    // The sleeper at position i.
    lemma SleeperAt(i: nat)
      requires SleepersOk() && i <= |nappers|
      ensures At(nappers, i) == (if i < |nappers| then nappers[i] else null) && sleepHead == At(nappers, 0)
      ensures |NapList(nappers)| == |nappers|
      ensures i < |nappers| ==> nappers[i].nextSleep == At(nappers, i + 1) && nappers[i] in nappers
      ensures i < |nappers| ==> NapList(nappers)[i] == Nap(nappers[i].id, nappers[i].sleepLeft)
    {
    }

    // Only thread t, which does not sleep, has a new number of ticks.
    twostate lemma NapsUnmoved(t: Tcb)
      requires nappers == old(nappers) && t !in nappers
      requires forall x: Tcb :: x in nappers && x != t ==> x.sleepLeft == old(x.sleepLeft)
      ensures NapList(nappers) == old(NapList(nappers))
    {
      assert forall i: nat :: i < |nappers| ==> nappers[i] in nappers;
    }

    // The running thread became the i-th sleeper.
    twostate lemma SleepersLinked(i: nat)
      requires old(SleepersOk()) && all == old(all) && i <= |old(nappers)| && Known(running) && running !in old(nappers)
      requires nappers == old(nappers)[..i] + [running] + old(nappers)[i..]
      requires sleepHead == (if i == 0 then running else old(sleepHead))
      requires running.nextSleep == At(old(nappers), i) && (i > 0 ==> old(nappers)[i - 1].nextSleep == running)
      requires forall j: nat :: j < |old(nappers)| && j + 1 != i ==>
               old(nappers)[j].nextSleep == old(nappers[j].nextSleep)
      ensures SleepersOk()
    {
      ghost var q := old(nappers);
      Inserted(q, nappers, i, running);
      hide Distinct;
      assert sleepHead == At(nappers, 0);
      forall j: nat | j < |nappers|
        ensures Known(nappers[j])
      {
        if j > i {
          assert Known(q[j - 1]);
        } else if j < i {
          assert Known(q[j]);
        }
      }
      forall j: nat | j < |nappers|
        ensures nappers[j].nextSleep == At(nappers, j + 1)
      {
        if j > i {
          assert nappers[j] == q[j - 1] && At(nappers, j + 1) == At(q, j);
        } else if j + 1 < i {
          assert nappers[j] == q[j] && At(nappers, j + 1) == q[j + 1];
        } else if j < i {
          assert nappers[j] == q[i - 1] && At(nappers, j + 1) == running;
        } else {
          assert At(nappers, j + 1) == At(q, i);
        }
      }
    }

    // The running thread has its own ticks, the sleeper behind it so many fewer.
    twostate lemma NapsInserted(i: nat)
      requires i <= |old(nappers)| && running !in old(nappers)
      requires nappers == old(nappers)[..i] + [running] + old(nappers)[i..]
      requires i < |old(nappers)| ==>
               old(nappers[i].sleepLeft) >= running.sleepLeft &&
               old(nappers)[i].sleepLeft == old(nappers[i].sleepLeft) - running.sleepLeft
      requires forall j: nat :: j < |old(nappers)| && j != i ==> old(nappers)[j].sleepLeft == old(nappers[j].sleepLeft)
      ensures NapList(nappers) == InsertedAt(old(NapList(nappers)), i, running.id, running.sleepLeft)
    {
      ghost var l, r := old(NapList(nappers)), InsertedAt(old(NapList(nappers)), i, running.id, running.sleepLeft);
      assert |r| == |nappers|;
      forall j: nat | j < |nappers|
        ensures NapList(nappers)[j] == r[j]
      {
        if j == i + 1 {
          assert l[i..][0] == l[i];
        } else if j > i + 1 {
          assert l[i..][j - 1 - i] == l[j - 1];
        }
      }
    }

    // The links of insertAfter: the running thread becomes sleeper i.
    method LinkBehind(ptr: Tcb, ghost next: Tcb?, ghost i: nat)
      requires next == ptr.nextSleep && next != running && ptr != running && ptr != next
      requires i <= |nappers| && (next != null ==> next.sleepLeft >= running.sleepLeft)
      modifies this`nappers, running`nextSleep, ptr`nextSleep, (if next == null then {} else {next})`sleepLeft
      ensures running.nextSleep == next && ptr.nextSleep == running
      ensures nappers == old(nappers)[..i] + [running] + old(nappers)[i..]
      ensures next != null ==> next.sleepLeft == old(next.sleepLeft) - running.sleepLeft
    {
      running.nextSleep := ptr.nextSleep;
      ptr.nextSleep := running;
      if running.nextSleep != null {
        running.nextSleep.sleepLeft := running.nextSleep.sleepLeft - running.sleepLeft;
      }
      nappers := nappers[..i] + [running] + nappers[i..];
    }

    // TCB::insertAfter
    method InsertAfter(ptr: Tcb, ghost i: nat)
      requires Valid() && running !in nappers && 0 < i <= |nappers| && ptr == nappers[i - 1]
      requires i < |nappers| ==> nappers[i].sleepLeft >= running.sleepLeft
      modifies this`nappers, running`nextSleep, ptr`nextSleep, Behind(nappers, i)`sleepLeft
      ensures Valid() &&
              View() == old(View()).(naps := InsertedAt(old(NapList(nappers)), i, running.id, old(running.sleepLeft)))
    {
      hide *;
      Parts();
      ViewIs();
      SleepersApart(i - 1);
      BehindIs(i);
      NotSleeping(running);
      LinkBehind(ptr, At(nappers, i), i);
      ReadyKept();
      SemsKept();
      FlagsKept();
      SleepersLinked(i);
      NapsInserted(i);
      TableKept();
      MakeValid();
      ViewIs();
    }

    // The sleeper at position i, the one behind it, and all the others.
    lemma SleepersApart(i: nat)
      requires SleepersOk() && i < |nappers|
      ensures nappers[i].nextSleep == At(nappers, i + 1) && nappers[i] in all.Values
      ensures At(nappers, i + 1) == (if i + 1 < |nappers| then nappers[i + 1] else null)
      ensures forall j: nat :: j < |nappers| ==> nappers[j] in nappers && nappers[j] in all.Values
      ensures forall j: nat :: j < |nappers| && j != i ==> nappers[j] != nappers[i]
      ensures forall j: nat :: j < |nappers| && i + 1 < |nappers| && j != i + 1 ==> nappers[j] != nappers[i + 1]
      ensures sleepHead == nappers[0]
    {
    }

    // The links of putToSleep for a new first sleeper.
    method LinkFirst(next: Tcb)
      requires next == sleepHead && next != running && next.sleepLeft >= running.sleepLeft
      modifies this`nappers, running`nextSleep, next`sleepLeft, this`sleepHead
      ensures running.nextSleep == next && sleepHead == running
      ensures nappers == old(nappers)[..0] + [running] + old(nappers)[0..]
      ensures next.sleepLeft == old(next.sleepLeft) - running.sleepLeft
    {
      running.nextSleep := sleepHead;
      sleepHead.sleepLeft := sleepHead.sleepLeft - running.sleepLeft;
      sleepHead := running;
      nappers := nappers[..0] + [running] + nappers[0..];
    }

    // The front of the list is as good a place as any.
    method InsertFirst()
      requires Valid() && running !in nappers && sleepHead != null && nappers != [] &&
               nappers[0].sleepLeft >= running.sleepLeft
      modifies this`nappers, this`sleepHead, running`nextSleep, Behind(nappers, 0)`sleepLeft
      ensures Valid() &&
              View() == old(View()).(naps := InsertedAt(old(NapList(nappers)), 0, running.id, old(running.sleepLeft)))
    {
      hide *;
      Parts();
      ViewIs();
      SleepersApart(0);
      FirstSleepers();
      BehindIs(0);
      NotSleeping(running);
      LinkFirst(sleepHead);
      ReadyKept();
      SemsKept();
      FlagsKept();
      SleepersLinked(0);
      NapsInserted(0);
      TableKept();
      MakeValid();
      ViewIs();
    }

    lemma BehindIs(i: nat)
      requires SleepersOk()
      ensures Behind(nappers, i) == (if i < |nappers| then {nappers[i]} else {}) && Behind(nappers, i) <= all.Values
    {
    }

    lemma FirstSleepers()
      requires SleepersOk() && nappers != []
      ensures At(nappers, 0) == nappers[0] && forall j: nat :: 0 < j < |nappers| ==> nappers[j] != nappers[0]
    {
    }

    // The only sleeper.
    method InsertOnly(t: nat)
      requires Valid() && sleepHead == null
      modifies this`nappers, this`sleepHead, running`nextSleep, running`sleepLeft
      ensures Valid() && View() == old(View()).(naps := [Nap(running.id, t)]) && old(nappers) == []
    {
      hide *;
      Parts();
      ViewIs();
      NoSleepers();
      sleepHead := running;
      sleepHead.sleepLeft := t;
      sleepHead.nextSleep := null;
      nappers := nappers[..0] + [running] + nappers[0..];
      ReadyKept();
      SemsKept();
      FlagsKept();
      SleepersLinked(0);
      NapsInserted(0);
      OnlyNap(running.id, t);
      TableKept();
      MakeValid();
      ViewIs();
    }

    lemma NoSleepers()
      requires SleepersOk() && sleepHead == null
      ensures nappers == [] && At(nappers, 0) == null && NapList(nappers) == []
    {
    }

    lemma OnlyNap(id: nat, t: nat)
      ensures InsertedAt([], 0, id, t) == [Nap(id, t)] && Insert([], id, t) == [Nap(id, t)]
    {
    }

    // TCB::putToSleep
    method PutToSleep(t: nat)
      requires Valid() && running !in nappers && running !in scheduler.queue
      modifies this`running, this`nappers, this`sleepHead, all.Values`nextSleep, all.Values`sleepLeft, running`sleeping
      modifies scheduler`head, scheduler`tail, scheduler`queue, all.Values`nextTcb
      ensures Valid() && View() == KernelSpec.Sleep(old(View()), t)
    {
      hide *;
      Parts();
      ViewIs();
      KnownIn(running);
      SleepIs(View(), t);
      NotSleeping(running);
      running.nextSleep := null;
      SleepersSame();
      MakeValid();
      ViewIs();
      if t == 0 {
        return;
      }
      if sleepHead == null {
        NoSleepers();
        InsertOnly(t);
        OnlyNap(running.id, t);
      } else {
        SomeSleepers();
        var ptr, i := FindPlaceToSleep(t);
        if ptr == null {
          BehindKnown(0);
          InsertFirst();
        } else {
          KnownSleeper(i - 1);
          BehindKnown(i);
          InsertAfter(ptr, i);
        }
      }
      SetSleeping(running, true);
      Dispatch();
    }

    lemma KnownIn(t: Tcb)
      requires Known(t)
      ensures t in all.Values
    {
    }

    lemma BehindKnown(i: nat)
      requires Valid()
      ensures Behind(nappers, i) <= all.Values
    {
    }

    lemma KnownSleeper(i: nat)
      requires Valid() && i < |nappers|
      ensures nappers[i] in all.Values
    {
    }

    lemma SomeSleepers()
      requires Valid() && sleepHead != null
      ensures nappers != []
    {
    }

    lemma NotSleeping(t: Tcb)
      requires t !in nappers
      ensures forall i: nat :: i < |nappers| ==> nappers[i] != t
    {
    }

    twostate lemma SleepersSame()
      requires old(SleepersOk()) && all == old(all) && nappers == old(nappers) && sleepHead == old(sleepHead)
      requires forall i: nat :: i < |nappers| ==> nappers[i].nextSleep == old(nappers[i].nextSleep)
      ensures SleepersOk()
    {
    }

    lemma SleepIs(k: KState, t: nat)
      ensures KernelSpec.Sleep(k, t) ==
              if t == 0 then k
              else
                var k1 := k.(naps := Insert(k.naps, k.running, t));
                KernelSpec.Dispatch(KernelSpec.SetSleeping(k1, k.running, true))
    {
    }

    // ----- the timer

    // Riscv::wakeSleepingThreads
    method WakeSleepingThreads(ghost place: Places)
      requires Valid() && Placed(View(), place)
      modifies this`sleepHead, this`nappers, all.Values`nextSleep, all.Values`sleeping
      modifies scheduler`head, scheduler`tail, scheduler`queue, all.Values`nextTcb
      ensures Valid() && View() == WakeDue(old(View())) && running == old(running)
      decreases |nappers|
    {
      hide *;
      Parts();
      ViewIs();
      QueuesDisjoint(place);
      SleeperAt(0);
      WakeIs(View());
      NapsEmpty();
      if sleepHead != null {
        if sleepHead.sleepLeft == 0 {
          SleeperReady(View(), place);
          ghost var place1 := place[View().naps[0].id := Ready];
          WakeOne();
          WakeSleepingThreads(place1);
        }
      }
    }

    lemma NapsEmpty()
      requires SleepersOk()
      ensures nappers == [] <==> NapList(nappers) == []
      ensures sleepHead == null <==> nappers == []
    {
    }

    lemma WakeIs(k: KState)
      ensures WakeDue(k) == if k.naps == [] || k.naps[0].left > 0 then k else WakeDue(WakeFirst(k))
    {
    }

    // The first sleeper becomes ready and leaves the list.
    method WakeOne()
      requires Valid() && sleepHead != null && nappers != [] && nappers[0] !in scheduler.queue
      modifies this`sleepHead, this`nappers, all.Values`nextSleep, all.Values`sleeping
      modifies scheduler`head, scheduler`tail, scheduler`queue, all.Values`nextTcb
      ensures Valid() && old(View()).naps != [] && View() == WakeFirst(old(View())) && |nappers| < |old(nappers)|
    {
      hide *;
      Parts();
      ViewIs();
      KnownSleepers();
      FirstNap();
      SetSleeping(sleepHead, false);
      QueueKnown();
      Put(sleepHead);
      WakeFirstIs(old(View()));
      UnlinkFirst();
    }

    method UnlinkFirst()
      requires Valid() && sleepHead != null && nappers != []
      modifies this`sleepHead, this`nappers, all.Values`nextSleep
      ensures Valid() && old(View()).naps != [] && View() == old(View()).(naps := old(View()).naps[1..]) &&
              nappers == old(nappers)[1..]
    {
      hide *;
      Parts();
      ViewIs();
      KnownSleepers();
      FirstNap();
      var tmp := sleepHead;
      sleepHead := sleepHead.nextSleep;
      tmp.nextSleep := null;
      nappers := nappers[1..];
      ReadyKept();
      SemsKept();
      FlagsKept();
      SleeperGone(tmp);
      TableKept();
      MakeValid();
      ViewIs();
    }

    lemma KnownSleepers()
      requires SleepersOk()
      ensures AllKnown(nappers) && sleepHead == At(nappers, 0)
      ensures nappers != [] ==> Known(nappers[0]) && sleepHead == nappers[0] && nappers[0] in all.Values
    {
    }

    lemma FirstNap()
      requires SleepersOk() && nappers != []
      ensures |NapList(nappers)| == |nappers| && NapList(nappers[1..]) == NapList(nappers)[1..]
      ensures NapList(nappers)[0].id == nappers[0].id && sleepHead == nappers[0] && nappers[0] in all.Values
    {
    }

    lemma WakeFirstIs(k: KState)
      requires k.naps != []
      ensures WakeFirst(k) ==
              KernelSpec.Put(KernelSpec.SetSleeping(k, k.naps[0].id, false), k.naps[0].id).(naps := k.naps[1..])
      ensures KernelSpec.Put(KernelSpec.SetSleeping(k, k.naps[0].id, false), k.naps[0].id).naps == k.naps
    {
    }

    twostate lemma SleeperGone(t: Tcb)
      requires old(SleepersOk()) && all == old(all) && old(nappers) != [] && t == old(nappers)[0]
      requires nappers == old(nappers)[1..] && sleepHead == old(nappers[0].nextSleep)
      requires forall x: Tcb :: x in all.Values && x != t ==> x.nextSleep == old(x.nextSleep)
      ensures SleepersOk()
    {
      ghost var q := old(nappers);
      forall j: nat | j < |nappers|
        ensures nappers[j] == q[j + 1] && Known(nappers[j]) && nappers[j].nextSleep == At(nappers, j + 1)
      {
        assert Known(q[j + 1]) && q[j + 1] != t;
      }
    }

    // The timer interrupt.
    method TimerTick(ghost place: Places)
      requires Valid() && Sound(View(), place)
      modifies this, scheduler`head, scheduler`tail, scheduler`queue
      modifies all.Values`nextTcb, all.Values`nextSleep, all.Values`sleepLeft, all.Values`sleeping
      ensures Valid() && View() == Step(old(View()), Timer)
    {
      hide *;
      ghost var k := View();
      StepIsTick(k);
      TickIs(k);
      AfterWakeIs(k);
      SoundParts(k, place);
      TickedPlaced(k, place);
      CountTick();
      WakeSleepingThreads(place);
      ghost var place1 := WakePlaced(k.(naps := Ticked(k.naps), counter := k.counter + 1), place);
      QueuesDisjoint(place1);
      EndSlice();
    }

    // The end of the timer branch: a dispatch once the running thread's slice is used up.
    method EndSlice()
      requires Valid() && running !in scheduler.queue
      modifies this`running, this`timeSliceCounter, scheduler`head, scheduler`tail, scheduler`queue, all.Values`nextTcb
      ensures Valid()
      ensures var k1 := old(View());
              View() == if k1.counter < Slice(k1) then k1
                        else if k1.ready == [] then k1.(counter := 0)
                        else KernelSpec.Dispatch(k1.(counter := 0))
    {
      hide *;
      RunningView();
      Parts();
      ViewIs();
      HeadIs();
      SliceIs(View());
      FlagsOf(running);
      if timeSliceCounter >= running.timeSlice {
        ResetCounter();
        if scheduler.head != null {
          Dispatch();
        }
      }
    }

    method ResetCounter()
      requires Valid()
      modifies this`timeSliceCounter
      ensures Valid() && View() == old(View()).(counter := 0)
    {
      hide *;
      Parts();
      ViewIs();
      timeSliceCounter := 0;
      MakeValid();
      ViewIs();
    }

    lemma SliceIs(k: KState)
      requires k.running in k.threads
      ensures Slice(k) == k.threads[k.running].slice
    {
    }

    // One more tick of the slice, one fewer for the first sleeper.
    method CountTick()
      requires Valid()
      modifies this`timeSliceCounter, all.Values`sleepLeft
      ensures Valid() && running == old(running) && all == old(all) && scheduler.queue == old(scheduler.queue)
      ensures View() == old(View()).(naps := Ticked(old(View()).naps), counter := old(View()).counter + 1)
    {
      hide *;
      Parts();
      ViewIs();
      NapsEmpty();
      KnownSleepers();
      timeSliceCounter := timeSliceCounter + 1;
      if sleepHead != null {
        sleepHead.sleepLeft := if sleepHead.sleepLeft == 0 then 0xFFFF_FFFF_FFFF_FFFF else sleepHead.sleepLeft - 1;
      }
      ReadyKept();
      SemsKept();
      FlagsKept();
      HeadTicked(sleepHead);
      SleepersSame();
      TableKept();
      MakeValid();
      ViewIs();
    }

    twostate lemma HeadTicked(t: Tcb?)
      requires old(SleepersOk()) && nappers == old(nappers) && t == sleepHead == old(sleepHead)
      requires t != null ==>
               t.sleepLeft == if old(t.sleepLeft) == 0 then 0xFFFF_FFFF_FFFF_FFFF else old(t.sleepLeft) - 1
      requires forall i: nat :: i < |nappers| && nappers[i] != t ==> nappers[i].sleepLeft == old(nappers[i].sleepLeft)
      ensures NapList(nappers) == Ticked(old(NapList(nappers)))
    {
    }

    // ----- the other system calls

    // thread_create and thread_create_no_start
    method CreateThread(id: nat, slice: nat, start: bool) returns (t: Tcb)
      requires Valid() && id !in all && running !in scheduler.queue
      modifies this, scheduler`head, scheduler`tail, scheduler`queue, all.Values`nextTcb
      ensures Valid() && id in all && all[id] == t &&
              View() == KernelSpec.Leave(NewThread(old(View()), id, slice, start))
    {
      hide *;
      t := AddThread(id, slice);
      NewThreadIs(old(View()), id, slice, start);
      QueueKnown();
      Enlist(t, start);
      Leave();
    }

    // A new thread is started or not.
    method Enlist(t: Tcb, start: bool)
      requires Valid() && Known(t) && t !in scheduler.queue
      modifies this`unstarted, scheduler`head, scheduler`tail, scheduler`queue, Last(scheduler.queue)`nextTcb
      ensures Valid() && scheduler.queue ==
              if start && t != idle then old(scheduler.queue) + [t] else old(scheduler.queue)
      ensures View() ==
              if start then KernelSpec.Put(old(View()), t.id)
              else old(View()).(unstarted := old(View()).unstarted + {t.id})
    {
      hide *;
      if start {
        Put(t);
      } else {
        Parts();
        ViewIs();
        unstarted := unstarted + {t.id};
        MakeValid();
        ViewIs();
      }
    }

    method AddThread(id: nat, slice: nat) returns (t: Tcb)
      requires Valid() && id !in all
      modifies this`all
      ensures Valid() && fresh(t) && all == old(all)[id := t] && t.id == id && Known(t) && t !in scheduler.queue &&
              t != idle && t != running
      ensures View() == WithThread(old(View()), id, Thread(false, false, false, slice))
      ensures all.Values == old(all).Values + {t}
    {
      hide *;
      Parts();
      ViewIs();
      t := new Tcb(id, slice);
      all := all[id := t];
      AddedKnown(t);
      AddedQueues(t);
      AddedFlags(t);
      AddedNothing();
      MakeValid();
      ViewIs();
      WithThreadIs(old(View()), id, ThreadOf(t));
      FlagsOf(t);
    }

    // Thread t is new, the others are as they were.
    twostate predicate Added(new t: Tcb)
      reads this, t
    {
      && fresh(t) && t.id !in old(all) && all == old(all)[t.id := t] && t.nextTcb == null && t.nextSem == null
      && running == old(running) && nappers == old(nappers) && semaphores == old(semaphores) &&
         sleepHead == old(sleepHead)
    }

    twostate lemma AddedKnown(new t: Tcb)
      requires old(Table()) && Added(t)
      ensures Table() && Known(t) && t != idle && t != running && all.Values == old(all).Values + {t}
      ensures forall x: Tcb :: allocated(x) && old(allocated(x)) && old(Known(x)) ==> Known(x)
    {
      assert t.id in all && all[t.id] == t;
      forall x: Tcb
        ensures x in all.Values <==> x in old(all).Values || x == t
      {
        if x in old(all).Values {
          var i :| i in old(all) && old(all)[i] == x;
          assert all[i] == x;
        }
        if x in all.Values {
          var i :| i in all && all[i] == x;
          if i != t.id {
            assert old(all)[i] == x;
          }
        }
      }
    }

    twostate lemma AddedQueues(new t: Tcb)
      requires old(AllKnown(scheduler.queue)) && old(OthersNull()) && old(SemaphoresOk()) && old(SleepersOk()) &&
               Added(t)
      requires scheduler.queue == old(scheduler.queue)
      requires forall x: Tcb :: x in old(all).Values ==>
               x.nextTcb == old(x.nextTcb) && x.nextSem == old(x.nextSem) && x.nextSleep == old(x.nextSleep)
      requires forall s :: s in semaphores ==> semaphores[s].queue == old(semaphores[s].queue)
      requires forall s :: s in semaphores ==> semaphores[s].Valid() == old(semaphores[s].Valid())
      ensures AllKnown(scheduler.queue) && OthersNull() && SemaphoresOk() && SleepersOk() && t !in scheduler.queue
    {
      AddedReady(t);
      AddedSemaphores(t);
      AddedSleepers(t);
    }

    twostate lemma AddedReady(new t: Tcb)
      requires old(AllKnown(scheduler.queue)) && old(OthersNull()) && Added(t) &&
               scheduler.queue == old(scheduler.queue)
      requires forall x: Tcb :: x in old(all).Values ==> x.nextTcb == old(x.nextTcb)
      ensures AllKnown(scheduler.queue) && OthersNull() && t !in scheduler.queue
    {
      KnownStays(scheduler.queue);
      forall i | i in all && all[i] !in scheduler.queue
        ensures all[i].nextTcb == null
      {
        assert i != t.id ==> all[i] in old(all).Values;
      }
    }

    // Who was known is known.
    twostate lemma KnownStays(q: seq<Tcb>)
      requires old(AllKnown(q)) && forall i :: i in old(all) ==> i in all && all[i] == old(all)[i]
      ensures AllKnown(q)
    {
    }

    twostate lemma AddedSemaphores(new t: Tcb)
      requires old(SemaphoresOk()) && Added(t)
      requires forall x: Tcb :: x in old(all).Values ==> x.nextSem == old(x.nextSem)
      requires forall s :: s in semaphores ==> semaphores[s].queue == old(semaphores[s].queue)
      requires forall s :: s in semaphores ==> semaphores[s].Valid() == old(semaphores[s].Valid())
      ensures SemaphoresOk()
    {
      hide MySemaphore.Valid;
      forall s | s in semaphores
        ensures SemaphoreOk(s)
      {
        assert old(SemaphoreOk(s));
        KnownStays(semaphores[s].queue);
      }
      forall i | i in all && !Waits(all[i])
        ensures all[i].nextSem == null
      {
        if i != t.id {
          assert all[i] in old(all).Values && !old(Waits(all[i]));
        }
      }
    }

    twostate lemma AddedSleepers(new t: Tcb)
      requires old(SleepersOk()) && Added(t)
      requires forall x: Tcb :: x in old(all).Values ==> x.nextSleep == old(x.nextSleep)
      ensures SleepersOk()
    {
      KnownStays(nappers);
      hide Distinct;
      assert forall i: nat :: i < |nappers| ==> nappers[i] in old(all).Values by {
        assert forall i: nat :: i < |nappers| ==> old(Known(nappers[i]));
      }
    }

    twostate lemma AddedFlags(new t: Tcb)
      requires Added(t)
      requires forall x: Tcb :: x in old(all).Values ==>
               x.finished == old(x.finished) && x.blocked == old(x.blocked) && x.sleeping == old(x.sleeping)
      ensures ThreadMap() == old(ThreadMap())[t.id := ThreadOf(t)]
    {
      forall i | i in old(all)
        ensures i in all && ThreadOf(all[i]) == old(ThreadOf(all[i]))
      {
        assert all[i] in old(all).Values;
      }
    }

    // A new thread does not change what the semaphores and the sleepers hold.
    twostate lemma AddedNothing()
      requires semaphores == old(semaphores) && nappers == old(nappers)
      requires unchanged(semaphores.Values`val) && unchanged(semaphores.Values`queue) && unchanged(nappers`sleepLeft)
      ensures SemMap() == old(SemMap()) && NapList(nappers) == old(NapList(nappers))
    {
      hide SemMap;
    }

    lemma WithThreadIs(k: KState, t: nat, f: Thread)
      ensures WithThread(k, t, f) == k.(threads := k.threads[t := f])
    {
    }

    lemma NewThreadIs(k: KState, t: nat, slice: nat, start: bool)
      ensures var k1 := WithThread(k, t, Thread(false, false, false, slice));
              NewThread(k, t, slice, start) ==
                if start then KernelSpec.Put(k1, t) else k1.(unstarted := k1.unstarted + {t})
    {
    }

    // thread_start
    method ThreadStart(t: Tcb, ghost place: Places)
      requires Valid() && Sound(View(), place) && Known(t) && Allowed(View(), Start(t.id))
      modifies this`unstarted, this`running, this`timeSliceCounter, scheduler`head, scheduler`tail, scheduler`queue,
               all.Values`nextTcb
      ensures Valid() && View() == Step(old(View()), Start(t.id))
    {
      hide *;
      ghost var k := View();
      StepIs(k, Start(t.id));
      StartIs(k, t.id);
      SoundParts(k, place);
      QueuesDisjoint(place);
      UnstartedApart(t, place);
      StartedApart(t, place);
      Parts();
      ViewIs();
      unstarted := unstarted - {t.id};
      MakeValid();
      ViewIs();
      QueueKnown();
      Put(t);
      Leave();
    }

    lemma StartIs(k: KState, t: nat)
      ensures StartThread(k, t) == KernelSpec.Put(k.(unstarted := k.unstarted - {t}), t)
      ensures Allowed(k, Start(t)) ==> t in k.unstarted
    {
    }

    lemma UnstartedApart(t: Tcb, place: Places)
      requires Valid() && Placed(View(), place) && Known(t) && t.id in View().unstarted
      ensures t !in scheduler.queue
    {
      Parts();
      ViewIs();
      PlacedParts(View(), place);
      hide Valid, View, Placed, QueuesOk, NapsOk, FlagsOk, RunningOk;
      QueueNumbers(scheduler.queue, t);
      assert In(place, t.id, Unstarted);
    }

    lemma StartedApart(t: Tcb, place: Places)
      requires Valid() && Placed(View(), place) && Known(t) && t.id in View().unstarted
      ensures t != running
    {
      PlacedParts(View(), place);
      assert In(place, t.id, Unstarted);
      if t == running {
        RunningAt(View(), place);
      }
    }

    lemma StepIs(k: KState, op: Trap)
      requires Allowed(k, op)
      ensures Step(k, op) == match op
                case Create(t, slice, start) => KernelSpec.Leave(NewThread(k, t, slice, start))
                case Start(t) => KernelSpec.Leave(StartThread(k, t))
                case Exit => KernelSpec.Leave(KernelSpec.SetFinished(k, k.running))
                case Yield => KernelSpec.Leave(k)
                case Open(s, init) => KernelSpec.Leave(k.(sems := k.sems[s := Sem(init, [])]))
                case CloseSem(s) => KernelSpec.Leave(KernelSpec.Close(k, s))
                case WaitSem(s) => KernelSpec.Wait(k, s)
                case SignalSem(s) => KernelSpec.Signal(k, s)
                case SleepFor(ticks) => KernelSpec.Sleep(k, ticks)
                case Timer => Tick(k)
    {
    }

    // thread_exit
    method ThreadExit(ghost place: Places)
      requires Valid() && Sound(View(), place) && Allowed(View(), Exit)
      modifies running`finished, this`running, this`timeSliceCounter, scheduler`head, scheduler`tail, scheduler`queue,
               all.Values`nextTcb
      ensures Valid() && View() == Step(old(View()), Exit)
    {
      hide *;
      StepIs(View(), Exit);
      SoundParts(View(), place);
      QueuesDisjoint(place);
      Parts();
      ViewIs();
      SetFinished(running);
      Leave();
    }

    // thread_dispatch, and every call that only leaves the kernel
    method ThreadDispatch(ghost place: Places)
      requires Valid() && Sound(View(), place) && Allowed(View(), Yield)
      modifies this`running, this`timeSliceCounter, scheduler`head, scheduler`tail, scheduler`queue, all.Values`nextTcb
      ensures Valid() && View() == Step(old(View()), Yield)
    {
      hide *;
      StepIs(View(), Yield);
      SoundParts(View(), place);
      QueuesDisjoint(place);
      Leave();
    }

    // thread_create and thread_create_no_start
    method ThreadCreate(id: nat, slice: nat, start: bool, ghost place: Places) returns (t: Tcb)
      requires Valid() && Sound(View(), place) && Allowed(View(), Create(id, slice, start)) && id !in all
      modifies this, scheduler`head, scheduler`tail, scheduler`queue, all.Values`nextTcb
      ensures Valid() && id in all && all[id] == t && View() == Step(old(View()), Create(id, slice, start))
    {
      hide *;
      StepIs(View(), Create(id, slice, start));
      SoundParts(View(), place);
      QueuesDisjoint(place);
      t := CreateThread(id, slice, start);
    }

    // sem_open
    method SemOpen(init: nat, ghost sid: nat, ghost place: Places) returns (s: MySemaphore)
      requires Valid() && Sound(View(), place) && Allowed(View(), Open(sid, init)) && sid !in semaphores
      modifies this, scheduler`head, scheduler`tail, scheduler`queue, all.Values`nextTcb
      ensures Valid() && View() == Step(old(View()), Open(sid, init)) && semaphores == old(semaphores)[sid := s]
    {
      hide *;
      StepIs(View(), Open(sid, init));
      SoundParts(View(), place);
      QueuesDisjoint(place);
      s := AddSemaphore(init, sid);
      Leave();
    }

    method AddSemaphore(init: nat, ghost sid: nat) returns (s: MySemaphore)
      requires Valid() && sid !in semaphores
      modifies this`semaphores
      ensures Valid() && semaphores == old(semaphores)[sid := s]
      ensures View() == old(View()).(sems := old(View()).sems[sid := Sem(init, [])])
    {
      hide *;
      Parts();
      ViewIs();
      s := new MySemaphore(init);
      semaphores := semaphores[sid := s];
      ReadyKept();
      NapsKept();
      FlagsKept();
      NoNumbers(s.queue);
      Opened((sid, s));
      TableKept();
      MakeValid();
      ViewIs();
    }

    lemma NoNumbers(q: seq<Tcb>)
      requires q == []
      ensures Numbers(q) == [] && AllKnown(q)
    {
    }

    twostate lemma Opened(new w: (nat, MySemaphore))
      requires old(SemaphoresOk()) && w.0 !in old(semaphores) && fresh(w.1) && all == old(all)
      requires semaphores == old(semaphores)[w.0 := w.1] && w.1.queue == [] && w.1.Valid() && AllKnown(w.1.queue)
      requires forall r :: r in old(semaphores) ==>
               semaphores[r].queue == old(semaphores[r].queue) && semaphores[r].val == old(semaphores[r].val)
      requires forall r :: r in old(semaphores) ==> semaphores[r].Valid() == old(semaphores[r].Valid())
      requires forall t: Tcb :: t in all.Values ==> t.nextSem == old(t.nextSem)
      ensures SemaphoresOk() && SemMap() == old(SemMap())[w.0 := Sem(w.1.val, Numbers(w.1.queue))]
    {
      hide MySemaphore.Valid, Numbers;
      forall r | r in semaphores
        ensures SemaphoreOk(r)
      {
        if r != w.0 {
          assert old(SemaphoreOk(r));
        }
      }
      forall i | i in all && !Waits(all[i])
        ensures all[i].nextSem == null
      {
        assert all[i] in all.Values;
        forall r | r in old(semaphores)
          ensures all[i] !in old(semaphores[r].queue)
        {
          assert r in semaphores;
        }
        assert !old(Waits(all[i]));
      }
    }

    // sem_close
    method SemClose(s: MySemaphore, ghost sid: nat, ghost place: Places)
      requires Valid() && Sound(View(), place) && Allowed(View(), CloseSem(sid)) && sid in semaphores &&
               semaphores[sid] == s
      modifies this, s, all.Values`nextSem, all.Values`blocked, scheduler`head, scheduler`tail, scheduler`queue,
               all.Values`nextTcb
      ensures Valid() && View() == Step(old(View()), CloseSem(sid))
    {
      hide *;
      ghost var k := View();
      StepIs(k, CloseSem(sid));
      SoundParts(k, place);
      ViewSem(sid);
      ghost var place1 := CloseSound(k, place, sid);
      Close(s, sid, place);
      SoundParts(View(), place1);
      QueuesDisjoint(place1);
      Leave();
    }

    // sem_wait
    method SemWait(s: MySemaphore, ghost sid: nat, ghost place: Places)
      requires Valid() && Sound(View(), place) && Allowed(View(), WaitSem(sid)) && sid in semaphores &&
               semaphores[sid] == s
      modifies this`running, s, all.Values`nextSem, all.Values`blocked, scheduler`head, scheduler`tail,
               scheduler`queue, all.Values`nextTcb
      ensures Valid() && View() == Step(old(View()), WaitSem(sid))
    {
      hide *;
      StepIs(View(), WaitSem(sid));
      BusyThread(View(), WaitSem(sid));
      SoundParts(View(), place);
      QueuesDisjoint(place);
      SemaphoreEnds(sid);
      Wait(s, sid);
    }

    // The idle thread only yields.
    lemma BusyThread(k: KState, op: Trap)
      requires Allowed(k, op) && k == View() && op != Timer && op != Yield
      ensures running != idle
    {
    }

    lemma SemaphoreEnds(s: nat)
      requires Valid() && s in semaphores
      ensures Last(semaphores[s].queue) <= all.Values && First(semaphores[s].queue) <= all.Values &&
              running in all.Values
    {
      assert SemaphoreOk(s);
    }

    // sem_signal
    method SemSignal(s: MySemaphore, ghost sid: nat, ghost place: Places)
      requires Valid() && Sound(View(), place) && Allowed(View(), SignalSem(sid)) && sid in semaphores &&
               semaphores[sid] == s
      modifies s, all.Values`nextSem, all.Values`blocked, scheduler`head, scheduler`tail, scheduler`queue,
               all.Values`nextTcb
      ensures Valid() && View() == Step(old(View()), SignalSem(sid))
    {
      hide *;
      StepIs(View(), SignalSem(sid));
      SoundParts(View(), place);
      QueuesDisjoint(place);
      SemaphoreEnds(sid);
      Signal(s, sid);
    }

    // time_sleep
    method TimeSleep(ticks: nat, ghost place: Places)
      requires Valid() && Sound(View(), place) && Allowed(View(), SleepFor(ticks))
      modifies this`running, this`nappers, this`sleepHead, all.Values`nextSleep, all.Values`sleepLeft,
               all.Values`sleeping
      modifies scheduler`head, scheduler`tail, scheduler`queue, all.Values`nextTcb
      ensures Valid() && View() == Step(old(View()), SleepFor(ticks))
    {
      hide *;
      StepIs(View(), SleepFor(ticks));
      BusyThread(View(), SleepFor(ticks));
      SoundParts(View(), place);
      QueuesDisjoint(place);
      QueueKnown();
      PutToSleep(ticks);
    }
  }
}
