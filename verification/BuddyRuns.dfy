// Whole runs of the buddy allocator: any sequence of allocations and frees of live blocks.
module BuddyRuns {
  import opened BuddyTree
  import opened Sequences
  import opened BuddySpec
  import opened BuddyTheorems

  datatype State = State(live: set<nat>, lists: Lists)

  datatype Op = AllocOp(order: nat) | FreeOp(block: nat)

  ghost predicate Allowed(n: nat, s: State, op: Op) {
    match op
    case AllocOp(k) => k <= n
    case FreeOp(x) => x in s.live
  }

  ghost function Step(n: nat, s: State, op: Op): State
    requires Canonical(n, s.live, s.lists) && Allowed(n, s, op)
  {
    match op
    case AllocOp(k) =>
      (match Alloc(s.lists, k)
       case None => s
       case Some((after, y)) => State(s.live + {y}, after))
    case FreeOp(x) =>
      var base := s.live - {x};
      State(base, Coalesce(base, s.lists, x, n - Depth(x)))
  }

  lemma StepCanonical(n: nat, s: State, op: Op)
    requires Canonical(n, s.live, s.lists) && Allowed(n, s, op)
    ensures var t := Step(n, s, op); Canonical(n, t.live, t.lists)
  {
    match op
    case AllocOp(k) =>
      if Alloc(s.lists, k).Some? {
        AllocOk(n, s.live, s.lists, k);
      }
    case FreeOp(x) =>
      assert s.live - {x} + {x} == s.live;
      CoalesceOk(n, s.live - {x}, s.lists, x, n - Depth(x));
  }

  // s can be driven to t by the operations in ops, each allowed when it is called.
  ghost predicate Run(n: nat, s: State, ops: seq<Op>, t: State)
    requires Canonical(n, s.live, s.lists)
    decreases |ops|
  {
    if ops == [] then s == t
    else
      Allowed(n, s, ops[0]) &&
      (StepCanonical(n, s, ops[0]); Run(n, Step(n, s, ops[0]), ops[1..], t))
  }

  lemma {:induction false} RunCanonical(n: nat, s: State, ops: seq<Op>, t: State)
    requires Canonical(n, s.live, s.lists) && Run(n, s, ops, t)
    ensures Canonical(n, t.live, t.lists)
    decreases |ops|
  {
    if ops != [] {
      StepCanonical(n, s, ops[0]);
      RunCanonical(n, Step(n, s, ops[0]), ops[1..], t);
    }
  }

  ghost function Init(n: nat): (s: State)
    ensures Canonical(n, s.live, s.lists)
  {
    InitCanonical(n);
    State({}, InitLists(n))
  }

  // However two runs got there, if they left the same blocks live they left the same free blocks on
  // every list; if they left none live, the lists are those of initialisation.
  lemma HistoryForgotten(n: nat, ops1: seq<Op>, t1: State, ops2: seq<Op>, t2: State)
    requires Run(n, Init(n), ops1, t1) && Run(n, Init(n), ops2, t2)
    requires t1.live == t2.live
    ensures forall k :: 0 <= k <= n ==>
            k < |t1.lists| && k < |t2.lists| && multiset(t1.lists[k]) == multiset(t2.lists[k])
    ensures t1.live == {} ==> t1.lists == InitLists(n)
  {
    RunCanonical(n, Init(n), ops1, t1);
    RunCanonical(n, Init(n), ops2, t2);
    CanonicalUnique(n, t1.live, t1.lists, t2.lists);
    if t1.live == {} {
      EmptyIsInit(n, t1.lists);
    }
  }

  function Frees(xs: seq<nat>): (ops: seq<Op>)
    ensures |ops| == |xs|
  {
    seq(|xs|, i requires 0 <= i < |xs| => FreeOp(xs[i]))
  }

  // Freeing a list of distinct live blocks, in whatever order, is allowed and frees just those.
  lemma {:induction false} FreesRun(n: nat, s: State, xs: seq<nat>) returns (t: State)
    requires Canonical(n, s.live, s.lists) && NoDup(xs) && forall i :: 0 <= i < |xs| ==> xs[i] in s.live
    ensures Run(n, s, Frees(xs), t) && Canonical(n, t.live, t.lists)
    ensures t.live == s.live - set x | x in xs
    decreases |xs|
  {
    if xs == [] {
      t := s;
    } else {
      StepCanonical(n, s, FreeOp(xs[0]));
      t := FreesRun(n, Step(n, s, FreeOp(xs[0])), xs[1..]);
      assert Frees(xs)[1..] == Frees(xs[1..]);
      assert forall x: nat :: x in xs <==> x == xs[0] || x in xs[1..];
    }
  }
}
