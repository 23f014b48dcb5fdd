// Lists without repetitions, and optional values.
module Sequences {
  datatype Option<+T> = None | Some(value: T)

  ghost predicate NoDup(s: seq<nat>) {
    forall i, j :: 0 <= i < j < |s| ==> s[i] != s[j]
  }

  // s without the first occurrence of v.
  function Without(s: seq<nat>, v: nat): seq<nat> {
    if s == [] then []
    else if s[0] == v then s[1..]
    else [s[0]] + Without(s[1..], v)
  }

  lemma {:induction false} WithoutMember(s: seq<nat>, v: nat)
    requires NoDup(s)
    ensures NoDup(Without(s, v))
    ensures forall x :: x in Without(s, v) <==> x in s && x != v
  {
    if s != [] {
      WithoutMember(s[1..], v);
      assert forall x :: x in s <==> x == s[0] || x in s[1..];
      assert s[0] !in s[1..];
    }
  }

  lemma TailMember(s: seq<nat>)
    requires NoDup(s) && s != []
    ensures NoDup(s[1..])
    ensures forall x :: x in s[1..] <==> x in s && x != s[0]
  {
    assert s == [s[0]] + s[1..];
  }

  lemma {:induction false} WithoutAt(s: seq<nat>, i: nat)
    requires i < |s| && s[i] !in s[..i]
    ensures Without(s, s[i]) == s[..i] + s[i + 1..]
  {
    if i > 0 {
      assert s[1..][..i - 1] == s[..i][1..];
      assert s[..i][0] == s[0];
      WithoutAt(s[1..], i - 1);
      assert s[..i] == [s[0]] + s[1..][..i - 1];
    }
  }

  lemma {:induction false} WithoutAbsent(s: seq<nat>, v: nat)
    requires v !in s
    ensures Without(s, v) == s
  {
    if s != [] {
      WithoutAbsent(s[1..], v);
    }
  }

  lemma PushMember(s: seq<nat>, v: nat)
    requires NoDup(s) && v !in s
    ensures NoDup([v] + s)
    ensures forall x :: x in [v] + s <==> x == v || x in s
  {
  }
}
