// Where each thread is, and that every trap moves it from one place to another.
module KernelPlaces {
  import opened Sequences
  import opened SleepList
  import opened KernelSpec

  datatype Place = Unstarted | Ready | Running | Waiting(s: nat) | Sleeping | Done

  type Places = map<nat, Place>

  predicate In(place: Places, t: nat, p: Place) {
    t in place && place[t] == p
  }

  ghost predicate UnstartedOk(k: KState, place: Places) {
    forall t: nat :: t in k.unstarted <==> In(place, t, Unstarted)
  }

  ghost predicate ReadyOk(k: KState, place: Places) {
    NoDup(k.ready) && forall t: nat :: t in k.ready <==> In(place, t, Ready)
  }

  ghost predicate RunningOk(k: KState, place: Places) {
    forall t: nat :: In(place, t, Running) <==> t == k.running && t != k.idle
  }

  ghost predicate QueuesOk(k: KState, place: Places) {
    && (forall s :: s in k.sems ==> NoDup(k.sems[s].queue))
    && (forall s, t: nat :: s in k.sems ==> (t in k.sems[s].queue <==> In(place, t, Waiting(s))))
    && (forall s: nat, t: nat :: In(place, t, Waiting(s)) ==> s in k.sems)
  }

  ghost predicate NapsOk(k: KState, place: Places) {
    NoDup(Ids(k.naps)) && forall t: nat :: t in Ids(k.naps) <==> In(place, t, Sleeping)
  }

  // The flags a thread has at its place.
  predicate Fits(f: Thread, p: Place) {
    && (f.blocked <==> p.Waiting?) && (f.sleeping <==> p == Sleeping)
    && (p == Done ==> f.finished) && (f.finished ==> p == Done || p == Running)
  }

  ghost predicate FlagsOk(k: KState, place: Places) {
    && k.idle in k.threads && CanRun(k, k.idle) && k.running in k.threads
    && (forall t: nat :: t in place <==> t in k.threads && t != k.idle)
    && (forall t: nat :: t in place ==> Fits(k.threads[t], place[t]))
  }

  ghost predicate Placed(k: KState, place: Places) {
    && UnstartedOk(k, place) && ReadyOk(k, place) && RunningOk(k, place)
    && QueuesOk(k, place) && NapsOk(k, place) && FlagsOk(k, place)
  }

  lemma PlacedParts(k: KState, place: Places)
    requires Placed(k, place)
    ensures UnstartedOk(k, place) && ReadyOk(k, place) && RunningOk(k, place)
    ensures QueuesOk(k, place) && NapsOk(k, place) && FlagsOk(k, place)
  {
  }

  lemma MakePlaced(k: KState, place: Places)
    requires UnstartedOk(k, place) && ReadyOk(k, place) && RunningOk(k, place)
    requires QueuesOk(k, place) && NapsOk(k, place) && FlagsOk(k, place)
    ensures Placed(k, place)
  {
  }

  lemma AppendMember(q: seq<nat>, t: nat)
    requires NoDup(q) && t !in q
    ensures NoDup(q + [t]) && forall x: nat :: x in q + [t] <==> x in q || x == t
  {
  }

  // ----- how one part changes when one thread moves

  lemma UnstartedMoved(k: KState, place: Places, k': KState, t: nat, p: Place)
    requires UnstartedOk(k, place) && !In(place, t, Unstarted) && p != Unstarted && k'.unstarted == k.unstarted
    ensures UnstartedOk(k', place[t := p])
  {
  }

  lemma ReadyMoved(k: KState, place: Places, k': KState, t: nat, p: Place)
    requires ReadyOk(k, place) && !In(place, t, Ready) && p != Ready && k'.ready == k.ready
    ensures ReadyOk(k', place[t := p])
  {
  }

  lemma ReadyPut(k: KState, place: Places, k': KState, t: nat)
    requires ReadyOk(k, place) && !In(place, t, Ready) && k'.ready == k.ready + [t]
    ensures ReadyOk(k', place[t := Ready])
  {
    AppendMember(k.ready, t);
  }

  lemma ReadyTaken(k: KState, place: Places, k': KState, p: Place)
    requires ReadyOk(k, place) && k.ready != [] && p != Ready && k'.ready == k.ready[1..]
    ensures In(place, k.ready[0], Ready) && ReadyOk(k', place[k.ready[0] := p])
  {
    TailMember(k.ready);
    assert k.ready[0] in k.ready;
  }

  lemma RunningMoved(k: KState, place: Places, k': KState, t: nat, p: Place)
    requires RunningOk(k, place) && !In(place, t, Running) && p != Running && k'.running == k.running &&
             k'.idle == k.idle
    ensures RunningOk(k', place[t := p])
  {
    var after := place[t := p];
    forall x: nat
      ensures In(after, x, Running) <==> x == k'.running && x != k'.idle
    {
      assert In(place, x, Running) <==> x == k.running && x != k.idle;
    }
  }

  lemma RunningParked(k: KState, place: Places, k': KState, p: Place)
    requires RunningOk(k, place) && p != Running && k'.running == k'.idle == k.idle
    ensures RunningOk(k', place[k.running := p])
  {
    var after := place[k.running := p];
    forall x: nat
      ensures In(after, x, Running) <==> x == k'.running && x != k'.idle
    {
      assert In(place, x, Running) <==> x == k.running && x != k.idle;
    }
  }

  lemma RunningResumed(k: KState, place: Places, k': KState, t: nat)
    requires RunningOk(k, place) && k.running == k.idle && k'.running == t && k'.idle == k.idle && t != k.idle
    ensures RunningOk(k', place[t := Running])
  {
    var after := place[t := Running];
    forall x: nat
      ensures In(after, x, Running) <==> x == k'.running && x != k'.idle
    {
      assert In(place, x, Running) <==> x == k.running && x != k.idle;
    }
  }

  lemma QueuesMoved(k: KState, place: Places, k': KState, t: nat, p: Place)
    requires QueuesOk(k, place) && (t in place ==> !place[t].Waiting?) && !p.Waiting?
    requires k'.sems.Keys == k.sems.Keys && forall s :: s in k.sems ==> k'.sems[s].queue == k.sems[s].queue
    ensures QueuesOk(k', place[t := p])
  {
    var after := place[t := p];
    forall r: nat, x: nat
      ensures In(after, x, Waiting(r)) ==> r in k'.sems
      ensures r in k'.sems ==> (x in k'.sems[r].queue <==> In(after, x, Waiting(r)))
    {
      assert In(place, x, Waiting(r)) ==> r in k.sems;
    }
  }

  lemma QueueJoined(k: KState, place: Places, k': KState, t: nat, s: nat)
    requires QueuesOk(k, place) && (t in place ==> !place[t].Waiting?) && s in k.sems && s in k'.sems
    requires k'.sems == k.sems[s := k'.sems[s]] && k'.sems[s].queue == k.sems[s].queue + [t]
    ensures QueuesOk(k', place[t := Waiting(s)])
  {
    assert t !in k.sems[s].queue;
    AppendMember(k.sems[s].queue, t);
    var after := place[t := Waiting(s)];
    forall r: nat, x: nat
      ensures In(after, x, Waiting(r)) ==> r in k'.sems
      ensures r in k'.sems ==> (x in k'.sems[r].queue <==> In(after, x, Waiting(r)))
    {
      assert In(place, x, Waiting(r)) ==> r in k.sems;
    }
  }

  lemma QueueLeft(k: KState, place: Places, k': KState, s: nat, p: Place)
    requires QueuesOk(k, place) && s in k.sems && k.sems[s].queue != [] && s in k'.sems && !p.Waiting?
    requires k'.sems == k.sems[s := k'.sems[s]] && k'.sems[s].queue == k.sems[s].queue[1..]
    ensures In(place, k.sems[s].queue[0], Waiting(s)) && QueuesOk(k', place[k.sems[s].queue[0] := p])
  {
    var q := k.sems[s].queue;
    TailMember(q);
    assert q[0] in q;
    var after := place[k.sems[s].queue[0] := p];
    forall r: nat, x: nat
      ensures In(after, x, Waiting(r)) ==> r in k'.sems
      ensures r in k'.sems ==> (x in k'.sems[r].queue <==> In(after, x, Waiting(r)))
    {
      assert In(place, x, Waiting(r)) ==> r in k.sems;
    }
  }

  lemma NapsMoved(k: KState, place: Places, k': KState, t: nat, p: Place)
    requires NapsOk(k, place) && !In(place, t, Sleeping) && p != Sleeping && Ids(k'.naps) == Ids(k.naps)
    ensures NapsOk(k', place[t := p])
  {
  }

  lemma NapStarted(k: KState, place: Places, k': KState, t: nat, ticks: nat)
    requires NapsOk(k, place) && !In(place, t, Sleeping) && k'.naps == Insert(k.naps, t, ticks)
    ensures NapsOk(k', place[t := Sleeping])
  {
    InsertIds(k.naps, t, ticks);
    InsertNoDup(k.naps, t, ticks);
  }

  lemma NapEnded(k: KState, place: Places, k': KState, p: Place)
    requires NapsOk(k, place) && k.naps != [] && p != Sleeping && k'.naps == k.naps[1..]
    ensures In(place, k.naps[0].id, Sleeping) && NapsOk(k', place[k.naps[0].id := p])
  {
    IdsCons(k.naps);
    TailMember(Ids(k.naps));
    assert Ids(k.naps)[0] in Ids(k.naps);
  }

  // k' gives thread t the flags f and keeps the others.
  ghost predicate FlagsSet(k: KState, k': KState, t: nat, f: Thread) {
    k'.idle == k.idle && t != k.idle && k'.threads == k.threads[t := f]
  }

  lemma FlagsMoved(k: KState, place: Places, k': KState, t: nat, f: Thread, p: Place)
    requires FlagsOk(k, place) && FlagsSet(k, k', t, f) && Fits(f, p) && k'.running in k'.threads
    ensures FlagsOk(k', place[t := p])
  {
  }

  // ----- one move at a time

  // The running thread r stops running and is put at place p, where it has flags f; nobody runs for now.
  ghost predicate Parked(k: KState, k': KState, f: Thread) {
    && k.running != k.idle && k'.running == k.idle && FlagsSet(k, k', k.running, f)
    && k'.unstarted == k.unstarted
  }

  lemma ParkReady(k: KState, place: Places, k': KState, f: Thread)
    requires Placed(k, place) && Parked(k, k', f) && Fits(f, Ready)
    requires k'.ready == k.ready + [k.running] && k'.sems == k.sems && k'.naps == k.naps
    ensures Placed(k', place[k.running := Ready])
  {
    PlacedParts(k, place);
    assert In(place, k.running, Running);
    hide Placed, UnstartedOk, ReadyOk, RunningOk, QueuesOk, NapsOk, FlagsOk, Fits;
    UnstartedMoved(k, place, k', k.running, Ready);
    ReadyPut(k, place, k', k.running);
    RunningParked(k, place, k', Ready);
    QueuesMoved(k, place, k', k.running, Ready);
    NapsMoved(k, place, k', k.running, Ready);
    IdleKept(k, place, k', f);
    FlagsMoved(k, place, k', k.running, f, Ready);
    MakePlaced(k', place[k.running := Ready]);
  }

  lemma IdleKept(k: KState, place: Places, k': KState, f: Thread)
    requires FlagsOk(k, place) && Parked(k, k', f)
    ensures k'.running in k'.threads
  {
  }

  lemma ParkWaiting(k: KState, place: Places, k': KState, f: Thread, s: nat)
    requires Placed(k, place) && Parked(k, k', f) && Fits(f, Waiting(s)) && s in k.sems && s in k'.sems
    requires k'.ready == k.ready && k'.naps == k.naps
    requires k'.sems == k.sems[s := k'.sems[s]] && k'.sems[s].queue == k.sems[s].queue + [k.running]
    ensures Placed(k', place[k.running := Waiting(s)])
  {
    PlacedParts(k, place);
    assert In(place, k.running, Running);
    hide Placed, UnstartedOk, ReadyOk, RunningOk, QueuesOk, NapsOk, FlagsOk, Fits;
    UnstartedMoved(k, place, k', k.running, Waiting(s));
    ReadyMoved(k, place, k', k.running, Waiting(s));
    RunningParked(k, place, k', Waiting(s));
    QueueJoined(k, place, k', k.running, s);
    NapsMoved(k, place, k', k.running, Waiting(s));
    IdleKept(k, place, k', f);
    FlagsMoved(k, place, k', k.running, f, Waiting(s));
    MakePlaced(k', place[k.running := Waiting(s)]);
  }

  lemma ParkSleeping(k: KState, place: Places, k': KState, f: Thread, ticks: nat)
    requires Placed(k, place) && Parked(k, k', f) && Fits(f, Sleeping)
    requires k'.ready == k.ready && k'.sems == k.sems && k'.naps == Insert(k.naps, k.running, ticks)
    ensures Placed(k', place[k.running := Sleeping])
  {
    PlacedParts(k, place);
    assert In(place, k.running, Running);
    hide Placed, UnstartedOk, ReadyOk, RunningOk, QueuesOk, NapsOk, FlagsOk, Fits;
    UnstartedMoved(k, place, k', k.running, Sleeping);
    ReadyMoved(k, place, k', k.running, Sleeping);
    RunningParked(k, place, k', Sleeping);
    QueuesMoved(k, place, k', k.running, Sleeping);
    NapStarted(k, place, k', k.running, ticks);
    IdleKept(k, place, k', f);
    FlagsMoved(k, place, k', k.running, f, Sleeping);
    MakePlaced(k', place[k.running := Sleeping]);
  }

  lemma ParkDone(k: KState, place: Places, k': KState, f: Thread)
    requires Placed(k, place) && Parked(k, k', f) && Fits(f, Done)
    requires k'.ready == k.ready && k'.sems == k.sems && k'.naps == k.naps
    ensures Placed(k', place[k.running := Done])
  {
    PlacedParts(k, place);
    assert In(place, k.running, Running);
    hide Placed, UnstartedOk, ReadyOk, RunningOk, QueuesOk, NapsOk, FlagsOk, Fits;
    UnstartedMoved(k, place, k', k.running, Done);
    ReadyMoved(k, place, k', k.running, Done);
    RunningParked(k, place, k', Done);
    QueuesMoved(k, place, k', k.running, Done);
    NapsMoved(k, place, k', k.running, Done);
    IdleKept(k, place, k', f);
    FlagsMoved(k, place, k', k.running, f, Done);
    MakePlaced(k', place[k.running := Done]);
  }

  // With nobody running, the first ready thread, if there is one, comes to run.
  lemma Resumed(k: KState, place: Places) returns (place': Places)
    requires Placed(k, place) && k.running == k.idle
    ensures Placed(Get(k), place')
    ensures place' == if k.ready == [] then place else place[k.ready[0] := Running]
    ensures k.ready != [] ==> In(place, k.ready[0], Ready)
  {
    place' := place;
    if k.ready != [] {
      var k', t := Get(k), k.ready[0];
      PlacedParts(k, place);
      ReadyTaken(k, place, k', Running);
      place' := place[t := Running];
      ResumedFlags(k, place, t);
      hide Placed, UnstartedOk, ReadyOk, RunningOk, QueuesOk, NapsOk, FlagsOk, Fits;
      UnstartedMoved(k, place, k', t, Running);
      RunningResumed(k, place, k', t);
      QueuesMoved(k, place, k', t, Running);
      NapsMoved(k, place, k', t, Running);
      FlagsMoved(k, place, k', t, k.threads[t], Running);
      MakePlaced(k', place');
    }
  }

  lemma ResumedFlags(k: KState, place: Places, t: nat)
    requires FlagsOk(k, place) && In(place, t, Ready)
    ensures t in k.threads && t != k.idle && Fits(k.threads[t], Running) && !k.threads[t].finished &&
            k.threads == k.threads[t := k.threads[t]]
  {
  }

  // The first waiter of s becomes ready; the value of s may change too.
  lemma WaiterReady(k: KState, place: Places, k': KState, s: nat)
    requires Placed(k, place) && s in k.sems && k.sems[s].queue != [] && s in k'.sems
    requires k'.sems == k.sems[s := k'.sems[s]] && k'.sems[s].queue == k.sems[s].queue[1..]
    requires var t := k.sems[s].queue[0];
             t in k.threads ==> FlagsSet(k, k', t, k.threads[t].(blocked := false)) || t == k.idle
    requires k'.ready == k.ready + [k.sems[s].queue[0]] && k'.naps == k.naps && k'.unstarted == k.unstarted &&
             k'.running == k.running
    ensures In(place, k.sems[s].queue[0], Waiting(s)) && Placed(k', place[k.sems[s].queue[0] := Ready])
  {
    var t := k.sems[s].queue[0];
    PlacedParts(k, place);
    QueueLeft(k, place, k', s, Ready);
    WaiterFlags(k, place, t, s);
    hide Placed, UnstartedOk, ReadyOk, RunningOk, QueuesOk, NapsOk, FlagsOk, Fits;
    UnstartedMoved(k, place, k', t, Ready);
    ReadyPut(k, place, k', t);
    RunningMoved(k, place, k', t, Ready);
    NapsMoved(k, place, k', t, Ready);
    FlagsMoved(k, place, k', t, k.threads[t].(blocked := false), Ready);
    MakePlaced(k', place[t := Ready]);
  }

  lemma WaiterFlags(k: KState, place: Places, t: nat, s: nat)
    requires FlagsOk(k, place) && In(place, t, Waiting(s))
    ensures t in k.threads && t != k.idle && Fits(k.threads[t].(blocked := false), Ready) && k.running in k.threads
  {
  }

  // The first sleeper becomes ready.
  lemma SleeperReady(k: KState, place: Places)
    requires Placed(k, place) && k.naps != []
    ensures In(place, k.naps[0].id, Sleeping) && Placed(WakeFirst(k), place[k.naps[0].id := Ready])
  {
    var k', t := WakeFirst(k), k.naps[0].id;
    PlacedParts(k, place);
    NapEnded(k, place, k', Ready);
    SleeperFlags(k, place, t);
    hide Placed, UnstartedOk, ReadyOk, RunningOk, QueuesOk, NapsOk, FlagsOk, Fits;
    UnstartedMoved(k, place, k', t, Ready);
    ReadyPut(k, place, k', t);
    RunningMoved(k, place, k', t, Ready);
    QueuesMoved(k, place, k', t, Ready);
    FlagsMoved(k, place, k', t, k.threads[t].(sleeping := false), Ready);
    MakePlaced(k', place[t := Ready]);
  }

  lemma SleeperFlags(k: KState, place: Places, t: nat)
    requires FlagsOk(k, place) && In(place, t, Sleeping)
    ensures t in k.threads && t != k.idle && Fits(k.threads[t].(sleeping := false), Ready) && k.running in k.threads
  {
  }
}
