// Every trap keeps the kernel sound: each thread at one place, each waiting queue as long as its semaphore
// is negative, the first sleeper with ticks to go.
module KernelSteps {
  import opened SleepList
  import opened SemaphoreSpec
  import opened KernelSpec
  import opened KernelPlaces

  ghost predicate SemsOk(k: KState) {
    forall s :: s in k.sems ==> |k.sems[s].queue| == if k.sems[s].val < 0 then -k.sems[s].val else 0
  }

  ghost predicate Sound(k: KState, place: Places) {
    Placed(k, place) && SemsOk(k) && HeadPositive(k.naps)
  }

  // Threads that were done before are done after.
  ghost predicate DoneStay(place: Places, place': Places) {
    forall t: nat :: In(place, t, Done) ==> In(place', t, Done)
  }

  lemma SoundParts(k: KState, place: Places)
    requires Sound(k, place)
    ensures Placed(k, place) && SemsOk(k) && HeadPositive(k.naps)
  {
  }

  lemma MakeSound(k: KState, place: Places)
    requires Placed(k, place) && SemsOk(k) && HeadPositive(k.naps)
    ensures Sound(k, place)
  {
  }

  lemma SemsSame(k: KState, k': KState)
    requires SemsOk(k) && k'.sems == k.sems
    ensures SemsOk(k')
  {
  }

  lemma DoneMoved(place: Places, t: nat, p: Place)
    requires !In(place, t, Done) || p == Done
    ensures DoneStay(place, place[t := p])
  {
  }

  lemma DoneThen(a: Places, b: Places, c: Places)
    requires DoneStay(a, b) && DoneStay(b, c)
    ensures DoneStay(a, c)
  {
  }

  // ----- dispatching

  lemma RunningAt(k: KState, place: Places)
    requires Placed(k, place)
    ensures k.idle in k.threads && k.running in k.threads && CanRun(k, k.idle)
    ensures k.running != k.idle ==> In(place, k.running, Running) && Fits(k.threads[k.running], Running)
    ensures k.idle !in place
  {
    assert In(place, k.running, Running) <==> k.running != k.idle;
  }

  // Dispatching when the running thread is at its place: it becomes ready, or it is done.
  lemma DispatchPlaced(k: KState, place: Places) returns (place': Places)
    requires Placed(k, place)
    ensures Placed(Dispatch(k), place') && DoneStay(place, place')
    ensures Dispatch(k).sems == k.sems && Dispatch(k).naps == k.naps
    ensures k.running != k.idle && k.threads[k.running].finished ==> In(place', k.running, Done)
  {
    RunningAt(k, place);
    hide Placed;
    var k1, place1 := k.(running := k.idle), place;
    if k.running != k.idle {
      var f := k.threads[k.running];
      if f.finished {
        place1 := place[k.running := Done];
        ParkDone(k, place, k1, f);
        DoneMoved(place, k.running, Done);
      } else {
        k1 := k1.(ready := k.ready + [k.running]);
        place1 := place[k.running := Ready];
        ParkReady(k, place, k1, f);
        DoneMoved(place, k.running, Ready);
      }
    }
    place' := Resumed(k1, place1);
    DoneResumed(k1, place1, place');
    DoneThen(place, place1, place');
  }

  lemma DoneResumed(k: KState, place: Places, place': Places)
    requires place' == (if k.ready == [] then place else place[k.ready[0] := Running])
    requires k.ready != [] ==> In(place, k.ready[0], Ready)
    ensures DoneStay(place, place')
  {
  }

  lemma CounterPlaced(k: KState, place: Places, n: nat)
    requires Placed(k, place)
    ensures Placed(k.(counter := n), place)
  {
  }

  lemma LeaveSound(k: KState, place: Places) returns (place': Places)
    requires Sound(k, place)
    ensures Sound(Leave(k), place') && DoneStay(place, place')
  {
    hide Placed, Dispatch;
    SoundParts(k, place);
    place' := place;
    if k.ready != [] {
      CounterPlaced(k, place, 0);
      place' := DispatchPlaced(k.(counter := 0), place);
    }
  }

  // ----- threads come and go

  lemma CreateSound(k: KState, place: Places, t: nat, slice: nat, start: bool) returns (place': Places)
    requires Sound(k, place) && t !in k.threads
    ensures Sound(NewThread(k, t, slice, start), place') && DoneStay(place, place')
  {
    var p, k' := if start then Ready else Unstarted, NewThread(k, t, slice, start);
    place' := place[t := p];
    RunningAt(k, place);
    PlacedParts(k, place);
    assert t !in place;
    DoneMoved(place, t, p);
    if start {
      UnstartedMoved(k, place, k', t, p);
      ReadyPut(k, place, k', t);
    } else {
      ReadyMoved(k, place, k', t, p);
    }
    assert UnstartedOk(k', place');
    hide UnstartedOk, ReadyOk, RunningOk, QueuesOk, NapsOk, FlagsOk;
    RunningMoved(k, place, k', t, p);
    QueuesMoved(k, place, k', t, p);
    NapsMoved(k, place, k', t, p);
    FlagsMoved(k, place, k', t, Thread(false, false, false, slice), p);
    MakePlaced(k', place');
  }

  lemma StartSound(k: KState, place: Places, t: nat) returns (place': Places)
    requires Sound(k, place) && t in k.unstarted
    ensures Sound(StartThread(k, t), place') && DoneStay(place, place')
  {
    var k' := StartThread(k, t);
    place' := place[t := Ready];
    PlacedParts(k, place);
    assert In(place, t, Unstarted);
    assert t in k.threads && t != k.idle && Fits(k.threads[t], Ready);
    assert UnstartedOk(k', place');
    DoneMoved(place, t, Ready);
    hide UnstartedOk, ReadyOk, RunningOk, QueuesOk, NapsOk, FlagsOk, Fits;
    ReadyPut(k, place, k', t);
    RunningMoved(k, place, k', t, Ready);
    QueuesMoved(k, place, k', t, Ready);
    NapsMoved(k, place, k', t, Ready);
    SameThreads(k, place, k', t);
    FlagsMoved(k, place, k', t, k.threads[t], Ready);
    MakePlaced(k', place');
  }

  lemma SameThreads(k: KState, place: Places, k': KState, t: nat)
    requires FlagsOk(k, place) && k'.threads == k.threads && k'.running == k.running && t in k.threads
    ensures k'.threads == k.threads[t := k.threads[t]] && k'.running in k'.threads
  {
  }

  lemma ExitSound(k: KState, place: Places)
    requires Sound(k, place) && k.running != k.idle
    ensures Sound(SetFinished(k, k.running), place)
  {
    RunningAt(k, place);
    var k', t := SetFinished(k, k.running), k.running;
    PlacedParts(k, place);
    var f := k.threads[t].(finished := true);
    assert place[t := Running] == place;
    assert FlagsSet(k, k', t, f) && Fits(f, Running);
    hide QueuesOk, NapsOk, FlagsOk, Fits, FlagsSet;
    FlagsMoved(k, place, k', t, f, Running);
    assert QueuesOk(k', place) by {
      QueuesSame(k, k', place);
    }
    assert NapsOk(k', place) by {
      NapsSame(k, k', place);
    }
    MakePlaced(k', place);
  }

  lemma QueuesSame(k: KState, k': KState, place: Places)
    requires QueuesOk(k, place) && k'.sems.Keys == k.sems.Keys &&
             forall s :: s in k.sems ==> k'.sems[s].queue == k.sems[s].queue
    ensures QueuesOk(k', place)
  {
  }

  lemma NapsSame(k: KState, k': KState, place: Places)
    requires NapsOk(k, place) && Ids(k'.naps) == Ids(k.naps)
    ensures NapsOk(k', place)
  {
  }

  // ----- semaphores

  // Only values of semaphores change, or semaphores nobody waits for come and go.
  lemma SemsPlaced(k: KState, place: Places, k': KState)
    requires Placed(k, place) && k' == k.(sems := k'.sems)
    requires forall s :: s in k.sems && s in k'.sems ==> k'.sems[s].queue == k.sems[s].queue
    requires forall s :: s in k.sems && s !in k'.sems ==> k.sems[s].queue == []
    requires forall s :: s in k'.sems && s !in k.sems ==> k'.sems[s].queue == []
    ensures Placed(k', place)
  {
    PlacedParts(k, place);
    assert UnstartedOk(k', place) && ReadyOk(k', place) && RunningOk(k', place) && FlagsOk(k', place);
    assert NapsOk(k', place);
    forall s: nat, t: nat
      ensures In(place, t, Waiting(s)) ==> s in k'.sems
      ensures s in k'.sems ==> (t in k'.sems[s].queue <==> In(place, t, Waiting(s)))
    {
      assert In(place, t, Waiting(s)) ==> s in k.sems && t in k.sems[s].queue;
    }
    MakePlaced(k', place);
  }

  lemma FirstWaiter(k: KState, place: Places, s: nat)
    requires Placed(k, place) && s in k.sems && k.sems[s].queue != []
    ensures var t := k.sems[s].queue[0];
            t in k.threads && t != k.idle && In(place, t, Waiting(s)) && Fits(k.threads[t], Waiting(s))
  {
    assert k.sems[s].queue[0] in k.sems[s].queue;
  }

  lemma SignalSound(k: KState, place: Places, s: nat) returns (place': Places)
    requires Sound(k, place) && s in k.sems
    ensures s in Signal(k, s).sems && Sound(Signal(k, s), place') && DoneStay(place, place')
    ensures place' == if k.sems[s].val < 0 then place[k.sems[s].queue[0] := Ready] else place
  {
    hide Placed;
    place' := place;
    var v := k.sems[s].val;
    if v < 0 {
      FirstWaiter(k, place, s);
      var t := k.sems[s].queue[0];
      WaiterReady(k, place, Signal(k, s), s);
      place' := place[t := Ready];
      DoneMoved(place, t, Ready);
    } else {
      SemsPlaced(k, place, Signal(k, s));
    }
  }

  lemma WaitSound(k: KState, place: Places, s: nat) returns (place': Places)
    requires Sound(k, place) && s in k.sems && k.running != k.idle && k.running in k.threads &&
             !k.threads[k.running].finished
    ensures Sound(Wait(k, s), place') && DoneStay(place, place')
  {
    RunningAt(k, place);
    WaitCases(k, s);
    place' := place;
    if k.sems[s].val <= 0 {
      place' := BlockSound(k, place, s);
    } else {
      hide Placed;
      SemsPlaced(k, place, Wait(k, s));
    }
  }

  // The running thread joins the queue of s and leaves the processor.
  function Joined(k: KState, s: nat): KState
    requires s in k.sems && k.running in k.threads
  {
    k.(sems := k.sems[s := Sem(k.sems[s].val - 1, k.sems[s].queue + [k.running])],
       threads := k.threads[k.running := k.threads[k.running].(blocked := true)], running := k.idle)
  }

  lemma WaitCases(k: KState, s: nat)
    requires s in k.sems && k.running in k.threads && k.running != k.idle
    ensures k.sems[s].val <= 0 ==> Wait(k, s) == Get(Joined(k, s))
    ensures k.sems[s].val > 0 ==> Wait(k, s) == k.(sems := k.sems[s := Sem(k.sems[s].val - 1, k.sems[s].queue)])
  {
    hide Get;
    var m := k.sems[s];
    var k1 := k.(sems := k.sems[s := m.(val := m.val - 1)]);
    assert k1.sems[s := k1.sems[s].(queue := m.queue + [k.running])] ==
           k.sems[s := Sem(m.val - 1, m.queue + [k.running])];
    if m.val <= 0 {
      GetAnyway(SetBlocked(k1.(sems := k1.sems[s := k1.sems[s].(queue := m.queue + [k.running])]), k.running, true));
    }
  }

  // Who ran before does not matter to the next thread.
  lemma GetAnyway(k: KState)
    ensures Get(k.(running := k.idle)) == Get(k)
  {
  }

  lemma BlockSound(k: KState, place: Places, s: nat) returns (place': Places)
    requires Sound(k, place) && s in k.sems && k.sems[s].val <= 0 && k.running in k.threads && k.running != k.idle
    requires !k.threads[k.running].finished && In(place, k.running, Running) && Fits(k.threads[k.running], Running)
    ensures Sound(Get(Joined(k, s)), place') && DoneStay(place, place')
  {
    hide Placed, DoneStay;
    var r, k1, f := k.running, Joined(k, s), k.threads[k.running].(blocked := true);
    ParkWaiting(k, place, k1, f, s);
    var place1 := place[r := Waiting(s)];
    DoneMoved(place, r, Waiting(s));
    place' := Resumed(k1, place1);
    DoneResumed(k1, place1, place');
    DoneThen(place, place1, place');
    assert SemsOk(Get(k1)) && HeadPositive(Get(k1).naps);
  }

  lemma {:induction false} SignalsSound(k: KState, place: Places, s: nat, n: nat) returns (place': Places)
    requires Sound(k, place) && s in k.sems
    ensures Sound(Signals(k, s, n), place') && DoneStay(place, place')
    decreases n
  {
    hide Sound, Signal;
    place' := place;
    if n > 0 {
      var place1 := SignalSound(k, place, s);
      place' := SignalsSound(Signal(k, s), place1, s, n - 1);
      DoneThen(place, place1, place');
    }
  }

  // ----- sleeping

  lemma SleepSound(k: KState, place: Places, ticks: nat) returns (place': Places)
    requires Sound(k, place) && k.running != k.idle && k.running in k.threads && !k.threads[k.running].finished
    ensures Sound(Sleep(k, ticks), place') && DoneStay(place, place')
  {
    RunningAt(k, place);
    hide Placed;
    place' := place;
    var r := k.running;
    if ticks > 0 {
      var f := k.threads[r].(sleeping := true);
      var k1 := k.(naps := Insert(k.naps, r, ticks), threads := k.threads[r := f], running := k.idle);
      ParkSleeping(k, place, k1, f, ticks);
      InsertHead(k.naps, r, ticks);
      var place1 := place[r := Sleeping];
      DoneMoved(place, r, Sleeping);
      place' := Resumed(k1, place1);
      DoneResumed(k1, place1, place');
      DoneThen(place, place1, place');
      assert Sleep(k, ticks) == Get(k1);
    }
  }

  // wakeSleepingThreads moves the threads whose time is up to the ready queue, in order, and no other.
  lemma {:induction false} WakePlaced(k: KState, place: Places) returns (place': Places)
    requires Placed(k, place)
    ensures var k' := WakeDue(k);
            && Placed(k', place') && DoneStay(place, place') && k'.sems == k.sems
            && k'.naps == Due(k.naps).1 && k'.ready == k.ready + Due(k.naps).0
            && k'.running == k.running && k'.idle == k.idle && k'.counter == k.counter
    decreases |k.naps|
  {
    hide Placed, WakeFirst;
    place' := place;
    if k.naps != [] && k.naps[0].left == 0 {
      var t := k.naps[0].id;
      SleeperReady(k, place);
      DoneMoved(place, t, Ready);
      FirstWoken(k, place);
      place' := WakePlaced(WakeFirst(k), place[t := Ready]);
      DoneThen(place, place[t := Ready], place');
      assert k.ready + [t] + Due(k.naps[1..]).0 == k.ready + ([t] + Due(k.naps[1..]).0);
    }
  }

  lemma FirstWoken(k: KState, place: Places)
    requires Placed(k, place) && k.naps != [] && In(place, k.naps[0].id, Sleeping)
    ensures var k' := WakeFirst(k);
            && k'.naps == k.naps[1..] && k'.ready == k.ready + [k.naps[0].id] && k'.sems == k.sems
            && k'.running == k.running && k'.idle == k.idle && k'.counter == k.counter
  {
    assert k.naps[0].id in place;
  }

  lemma TickedPlaced(k: KState, place: Places)
    requires Placed(k, place)
    ensures Placed(k.(naps := Ticked(k.naps), counter := k.counter + 1), place)
  {
    TickedIds(k.naps);
    PlacedParts(k, place);
    var k' := k.(naps := Ticked(k.naps), counter := k.counter + 1);
    assert UnstartedOk(k', place) && ReadyOk(k', place) && RunningOk(k', place) && FlagsOk(k', place);
    QueuesSame(k, k', place);
    NapsSame(k, k', place);
  }

  // The state after the sleepers were dealt with, and what the rest of the timer branch makes of it.
  function AfterWake(k: KState): KState {
    WakeDue(k.(naps := Ticked(k.naps), counter := k.counter + 1))
  }

  lemma TickIs(k: KState)
    ensures var k1 := AfterWake(k);
            Tick(k) == if k1.counter < Slice(k1) then k1
                       else if k1.ready == [] then k1.(counter := 0)
                       else Dispatch(k1.(counter := 0))
  {
  }

  lemma AfterWakeSound(k: KState, place: Places) returns (place': Places)
    requires Sound(k, place)
    ensures Sound(AfterWake(k), place') && DoneStay(place, place')
  {
    hide Placed, WakeDue, Due, Ticked, SemsOk, HeadPositive;
    SoundParts(k, place);
    TickedPlaced(k, place);
    var k0 := k.(naps := Ticked(k.naps), counter := k.counter + 1);
    place' := WakePlaced(k0, place);
    DueParts(Ticked(k.naps));
    SemsSame(k, AfterWake(k));
  }

  lemma TickSound(k: KState, place: Places) returns (place': Places)
    requires Sound(k, place)
    ensures Sound(Tick(k), place') && DoneStay(place, place')
  {
    hide *;
    TickIs(k);
    var k1 := AfterWake(k);
    place' := AfterWakeSound(k, place);
    SoundParts(k1, place');
    CounterPlaced(k1, place', 0);
    if k1.counter >= Slice(k1) {
      SemsSame(k1, k1.(counter := 0));
      if k1.ready != [] {
        var place1 := place';
        place' := DispatchPlaced(k1.(counter := 0), place1);
        SemsSame(k1, Dispatch(k1.(counter := 0)));
        DoneThen(place, place1, place');
      }
    }
    MakeSound(Tick(k), place');
  }
}
