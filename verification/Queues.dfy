/** Sequence-level process queues: what the intrusive lists of headers/listx.h hold,
    read from the head, together with the stable priority insertion of phase1/pcb.c. */
module Queues {

  datatype Option<+T> = None | Some(value: T)

  /** `s` with `x` put in front of position `i`. */
  function InsertAt<T>(s: seq<T>, i: nat, x: T): (r: seq<T>)
    requires i <= |s|
    ensures |r| == |s| + 1
    ensures multiset(r) == multiset(s) + multiset{x}
    ensures forall y :: y in r ==> y in s || y == x
  {
    assert s == s[..i] + s[i..];
    s[..i] + [x] + s[i..]
  }

  /** The place the scan of insertProcQ stops at: the first entry of lower priority. */
  function Slot(prios: seq<int>, x: int): (i: nat)
    ensures i <= |prios|
    ensures forall j :: 0 <= j < i ==> prios[j] >= x
    ensures i < |prios| ==> prios[i] < x
  {
    if prios == [] || prios[0] < x then 0 else 1 + Slot(prios[1..], x)
  }

  ghost predicate Descending(prios: seq<int>) {
    forall i, j :: 0 <= i < j < |prios| ==> prios[i] >= prios[j]
  }

  /** Stable insertion is forced: in a descending queue exactly one position has every
      entry of equal or higher priority before it and only lower ones after it, and
      inserting there keeps the queue descending. */
  lemma {:induction false} SlotUnique(prios: seq<int>, x: int, i: nat)
    requires Descending(prios) && i <= |prios|
    ensures i == Slot(prios, x) <==>
            && (forall j :: 0 <= j < i ==> prios[j] >= x)
            && (forall j :: i <= j < |prios| ==> prios[j] < x)
    ensures Descending(InsertAt(prios, Slot(prios, x), x))
  {
    var s := Slot(prios, x);
    assert forall j :: s <= j < |prios| ==> prios[j] < x;
    if i < s {
      assert prios[i] >= x;
    } else if s < i {
      assert prios[s] < x;
    }
    InsertDescending(prios, s, x);
  }

  lemma InsertDescending(prios: seq<int>, s: nat, x: int)
    requires Descending(prios) && s <= |prios|
    requires forall j :: 0 <= j < s ==> prios[j] >= x
    requires forall j :: s <= j < |prios| ==> prios[j] < x
    ensures Descending(InsertAt(prios, s, x))
  {
    var r := InsertAt(prios, s, x);
    forall a, b | 0 <= a < b < |r|
      ensures r[a] >= r[b]
    {
      assert r[a] == if a < s then prios[a] else if a == s then x else prios[a - 1];
      assert r[b] == if b < s then prios[b] else if b == s then x else prios[b - 1];
    }
  }

  /** The queue without the members of `d`, in the same order. */
  function Without(s: seq<nat>, d: set<nat>): (r: seq<nat>)
    ensures forall x :: x in r ==> x in s && x !in d
  {
    if s == [] then []
    else if s[0] in d then Without(s[1..], d)
    else [s[0]] + Without(s[1..], d)
  }

  lemma {:induction false} WithoutCount(s: seq<nat>, d: set<nat>, x: nat)
    ensures multiset(Without(s, d))[x] == if x in d then 0 else multiset(s)[x]
  {
    if s != [] {
      assert s == [s[0]] + s[1..];
      WithoutCount(s[1..], d, x);
    }
  }

  lemma {:induction false} WithoutTwice(s: seq<nat>, d: set<nat>, e: set<nat>)
    ensures Without(Without(s, d), e) == Without(s, d + e)
  {
    if s != [] {
      WithoutTwice(s[1..], d, e);
    }
  }

  /** Only the members of the queue matter. */
  lemma {:induction false} WithoutSame(s: seq<nat>, d: set<nat>, e: set<nat>)
    requires forall x :: x in s ==> (x in d <==> x in e)
    ensures Without(s, d) == Without(s, e)
  {
    if s != [] {
      WithoutSame(s[1..], d, e);
    }
  }

  lemma {:induction false} WithoutNone(s: seq<nat>, d: set<nat>)
    requires forall x :: x in s ==> x !in d
    ensures Without(s, d) == s
  {
    if s != [] {
      WithoutNone(s[1..], d);
    }
  }

  /** The queue with the first occurrence of `x` unlinked, as outProcQ leaves it. */
  function Remove(s: seq<nat>, x: nat): (r: seq<nat>)
    ensures |r| == |s| - (if x in s then 1 else 0)
  {
    if s == [] then [] else if s[0] == x then s[1..] else [s[0]] + Remove(s[1..], x)
  }

  ghost predicate NoDup(s: seq<nat>) {
    forall i, j :: 0 <= i < j < |s| ==> s[i] != s[j]
  }

  lemma {:induction false} RemoveIsWithout(s: seq<nat>, x: nat)
    requires NoDup(s)
    ensures Remove(s, x) == Without(s, {x})
  {
    if s != [] {
      if s[0] == x {
        assert forall j :: 0 < j < |s| ==> s[j] != x;
        WithoutNone(s[1..], {x});
      } else {
        RemoveIsWithout(s[1..], x);
      }
    }
  }

  lemma {:induction false} WithoutNoDup(s: seq<nat>, d: set<nat>)
    requires NoDup(s)
    ensures NoDup(Without(s, d))
  {
    if s != [] {
      WithoutNoDup(s[1..], d);
      assert s[0] !in s[1..];
    }
  }

  /** A queue whose members all occur once has no duplicates. */
  lemma {:induction false} CountNoDup(s: seq<nat>)
    requires forall x :: x in s ==> multiset(s)[x] <= 1
    ensures NoDup(s)
  {
    forall i, j | 0 <= i < j < |s|
      ensures s[i] != s[j]
    {
      assert s == s[..j] + [s[j]] + s[j + 1..];
      assert multiset(s) == multiset(s[..j]) + multiset([s[j]]) + multiset(s[j + 1..]);
      assert s[..j][i] in multiset(s[..j]);
      assert s[j] in s;
    }
  }

  lemma HeadTail(q: seq<nat>)
    requires q != []
    ensures multiset(q) == multiset{q[0]} + multiset(q[1..])
    ensures |q| == 1 ==> multiset(q) == multiset{q[0]}
    ensures forall x :: x in q[1..] ==> x in q
  {
    assert q == [q[0]] + q[1..];
  }
}
