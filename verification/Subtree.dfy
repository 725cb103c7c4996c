/** terminateProcess frees exactly the process and its descendants. */
module Subtree {
  import opened Queues
  import opened NucleusSpec
  import opened Invariant

  /** `q` is `p` or descends from it, read off the parent pointers. */
  ghost predicate Desc(pcb: seq<Pcb>, p: nat, q: nat)
    requires q < |pcb| && TreeWf(pcb)
    decreases pcb[q].pid
  {
    q == p ||
    (pcb[q].parent.Some? && var r := pcb[q].parent.value; pcb[r].pid < pcb[q].pid && Desc(pcb, p, r))
  }

  ghost function Descendants(pcb: seq<Pcb>, free: seq<nat>, p: nat): set<nat>
    requires TreeWf(pcb)
  {
    set q: nat | q < |pcb| && q !in free && Desc(pcb, p, q)
  }

  // ---------------------------------------------------------------- erasing a set of processes

  /** The active semaphore list without the members of `d`. */
  function Erase(asl: seq<Semd>, d: set<nat>): (r: seq<Semd>)
    ensures |r| <= |asl|
  {
    if asl == [] then []
    else
      var q := Without(asl[0].procq, d);
      (if q == [] then [] else [Semd(asl[0].key, q)]) + Erase(asl[1..], d)
  }

  /** Those of `d` that terminateProcess looks for in the ready queue. */
  function Queued(k: Kernel, d: set<nat>): set<nat> {
    set q | q in d && q < |k.pcb| && k.curr != Some(q) && k.pcb[q].semAdd == NULL
  }

  /** Those of `d` for which terminateProcess decrements softBlock_count. */
  function SoftHit(k: Kernel, d: set<nat>): set<nat> {
    set q | q in d && q < |k.pcb| && k.curr != Some(q) && k.pcb[q].semAdd != NULL &&
            IsDevice(k.devs, k.pcb[q].semAdd)
  }

  ghost predicate ErasedTree(pcb: seq<Pcb>, pcb': seq<Pcb>, free: seq<nat>, d: set<nat>) {
    && |pcb'| == |pcb|
    && (forall q :: 0 <= q < |pcb| ==>
          pcb'[q] == pcb[q].(parent := pcb'[q].parent, child := pcb'[q].child))
    && (forall q: nat :: Live(pcb, free, q) && q !in d ==>
          pcb'[q].parent == pcb[q].parent && pcb'[q].child == Without(pcb[q].child, d))
  }

  /** `k'` is `k` with the processes `d` gone and everybody else untouched. A ready process
      whose p_semAdd is not NULL stays in the ready queue: terminateProcess reads it as blocked. */
  ghost predicate Erased(k: Kernel, k': Kernel, d: set<nat>) {
    && ErasedTree(k.pcb, k'.pcb, k.free, d)
    && multiset(k'.free) == multiset(k.free) + multiset(d)
    && k'.ready == Without(k.ready, Queued(k, d))
    && k'.asl == Erase(k.asl, d)
    && k'.semdFree == k.semdFree + |k.asl| - |k'.asl|
    && k'.curr == (if k.curr.Some? && k.curr.value in d then None else k.curr)
    && k'.processCount == k.processCount - |d|
    && k'.softBlock == k.softBlock - |SoftHit(k, d)|
    && k' == k.(pcb := k'.pcb, free := k'.free, ready := k'.ready, asl := k'.asl, semdFree := k'.semdFree,
                curr := k'.curr, processCount := k'.processCount, softBlock := k'.softBlock)
  }

  // ---------------------------------------------------------------- Erase

  lemma {:induction false} EraseTwice(asl: seq<Semd>, d: set<nat>, e: set<nat>)
    ensures Erase(Erase(asl, d), e) == Erase(asl, d + e)
  {
    if asl != [] {
      EraseTwice(asl[1..], d, e);
      WithoutTwice(asl[0].procq, d, e);
      if Without(asl[0].procq, d) == [] {
        assert Erase(asl, d) == Erase(asl[1..], d);
        assert Erase(asl, d + e) == Erase(asl[1..], d + e);
      } else {
        assert Erase(asl, d)[1..] == Erase(asl[1..], d);
      }
    }
  }

  lemma {:induction false} EraseCount(asl: seq<Semd>, d: set<nat>, q: nat)
    ensures Blocked(Erase(asl, d))[q] == if q in d then 0 else Blocked(asl)[q]
  {
    if asl != [] {
      EraseCount(asl[1..], d, q);
      WithoutCount(asl[0].procq, d, q);
      if Without(asl[0].procq, d) == [] {
        assert Erase(asl, d) == Erase(asl[1..], d);
      } else {
        assert Erase(asl, d)[1..] == Erase(asl[1..], d);
      }
    }
  }

  lemma {:induction false} EraseDev(devs: int, asl: seq<Semd>, d: set<nat>, q: nat)
    ensures DevWaiters(devs, Erase(asl, d))[q] == if q in d then 0 else DevWaiters(devs, asl)[q]
  {
    if asl != [] {
      EraseDev(devs, asl[1..], d, q);
      WithoutCount(asl[0].procq, d, q);
      if Without(asl[0].procq, d) == [] {
        assert Erase(asl, d) == Erase(asl[1..], d);
      } else {
        assert Erase(asl, d)[1..] == Erase(asl[1..], d);
      }
    }
  }

  lemma {:induction false} EraseNone(asl: seq<Semd>, pcb: seq<Pcb>, d: set<nat>)
    requires AslOk(asl, pcb) && forall q :: q in d ==> q !in Blocked(asl)
    ensures Erase(asl, d) == asl
  {
    if asl != [] {
      forall q | q in asl[0].procq
        ensures q !in d
      {
        assert q in multiset(asl[0].procq);
        assert q in Blocked(asl);
      }
      WithoutNone(asl[0].procq, d);
      EraseNone(asl[1..], pcb, d);
    }
  }

  lemma {:induction false} EraseOk(asl: seq<Semd>, pcb: seq<Pcb>, d: set<nat>)
    requires AslOk(asl, pcb)
    ensures AslOk(Erase(asl, d), pcb) && Keys(Erase(asl, d)) <= Keys(asl)
  {
    if asl != [] {
      EraseOk(asl[1..], pcb, d);
      var q := Without(asl[0].procq, d);
      if q == [] {
        assert Erase(asl, d) == Erase(asl[1..], d);
      } else {
        assert Erase(asl, d)[0] == Semd(asl[0].key, q) && Erase(asl, d)[1..] == Erase(asl[1..], d);
      }
    }
  }

  /** Termination leaves each semaphore's survivors queued in the same order. */
  lemma {:induction false} EraseWaiters(asl: seq<Semd>, pcb: seq<Pcb>, d: set<nat>, key: int)
    requires AslOk(asl, pcb)
    ensures Waiters(Erase(asl, d), key) == Without(Waiters(asl, key), d)
  {
    if asl != [] {
      EraseWaiters(asl[1..], pcb, d, key);
      var q := Without(asl[0].procq, d);
      if q == [] {
        assert Erase(asl, d) == Erase(asl[1..], d);
        ActiveKey(asl[1..], pcb, key);
      } else {
        assert Erase(asl, d)[0] == Semd(asl[0].key, q) && Erase(asl, d)[1..] == Erase(asl[1..], d);
      }
    }
  }

  lemma {:induction false} UnlinkIsErase(asl: seq<Semd>, pcb: seq<Pcb>, p: nat)
    requires AslOk(asl, pcb) && p < |pcb| && forall q: nat :: Blocked(asl)[q] <= 1
    ensures Unlink(asl, pcb[p].semAdd, p) == Erase(asl, {p})
  {
    if asl != [] {
      var s := asl[0];
      assert forall q: nat :: multiset(s.procq)[q] <= Blocked(asl)[q] && Blocked(asl[1..])[q] <= Blocked(asl)[q];
      if p in s.procq {
        CountNoDup(s.procq);
        RemoveIsWithout(s.procq, p);
        assert multiset(s.procq)[p] == 1;
        EraseNone(asl[1..], pcb, {p});
      } else {
        WithoutNone(s.procq, {p});
        UnlinkIsErase(asl[1..], pcb, p);
      }
    }
  }

  // ---------------------------------------------------------------- the tree

  /** What the recursion relies on: it holds in every intermediate state too. */
  ghost predicate Loose(k: Kernel) {
    && Forest(k.pcb, k.free, k.nextPid)
    && AslOk(k.asl, k.pcb)
    && NoDup(k.ready)
    && forall q: nat :: Blocked(k.asl)[q] + OnCpu(k.curr)[q] <= 1
  }

  lemma {:induction false} DescPid(pcb: seq<Pcb>, p: nat, q: nat)
    requires TreeWf(pcb) && p < |pcb| && q < |pcb| && Desc(pcb, p, q)
    ensures pcb[p].pid <= pcb[q].pid
    decreases pcb[q].pid
  {
    if q != p {
      DescPid(pcb, p, pcb[q].parent.value);
    }
  }

  /** Detaching the first child `c` splits the subtree of `p` in two. */
  lemma {:induction false} DetachDesc(pcb: seq<Pcb>, free: seq<nat>, nextPid: nat, p: nat, q: nat)
    requires Forest(pcb, free, nextPid) && Live(pcb, free, p) && pcb[p].child != [] && Live(pcb, free, q)
    ensures var c := pcb[p].child[0]; var r := RemoveChild(pcb, p);
            && (Desc(pcb, p, q) <==> Desc(r, p, q) || Desc(r, c, q))
            && !(Desc(r, p, q) && Desc(r, c, q))
    decreases pcb[q].pid
  {
    var c := pcb[p].child[0];
    var r := RemoveChild(pcb, p);
    assert c in pcb[p].child;
    assert NodeOk(pcb, free, p) && NodeOk(pcb, free, c) && NodeOk(pcb, free, q);
    assert pcb[c].parent == Some(p) && c != p;
    if q == p {
      if Desc(r, c, p) {
        DescPid(r, c, p);
      }
    } else if q == c {
      assert Desc(pcb, p, p);
    } else if pcb[q].parent.Some? {
      DetachDesc(pcb, free, nextPid, p, pcb[q].parent.value);
    }
  }

  lemma DetachForest(pcb: seq<Pcb>, free: seq<nat>, nextPid: nat, p: nat)
    requires Forest(pcb, free, nextPid) && Live(pcb, free, p) && pcb[p].child != []
    ensures Forest(RemoveChild(pcb, p), free, nextPid)
    ensures Live(pcb, free, pcb[p].child[0]) && pcb[p].child[0] != p
  {
    var c := pcb[p].child[0];
    var r := RemoveChild(pcb, p);
    assert c in pcb[p].child;
    assert NodeOk(pcb, free, p) && NodeOk(pcb, free, c);
    assert pcb[p].child == [c] + pcb[p].child[1..];
    assert forall q: nat :: Live(r, free, q) <==> Live(pcb, free, q);
    assert forall q: nat :: Live(pcb, free, q) ==> r[q].pid == pcb[q].pid;
    forall q: nat | Live(r, free, q)
      ensures NodeOk(r, free, q)
    {
      DetachNode(pcb, free, p, q);
    }
  }

  lemma DetachNode(pcb: seq<Pcb>, free: seq<nat>, p: nat, q: nat)
    requires TreeWf(pcb) && Live(pcb, free, p) && pcb[p].child != [] && Live(pcb, free, q)
    requires forall x: nat :: Live(pcb, free, x) ==> NodeOk(pcb, free, x)
    ensures NodeOk(RemoveChild(pcb, p), free, q)
  {
    var c := pcb[p].child[0];
    assert c in pcb[p].child;
    assert NodeOk(pcb, free, q) && NodeOk(pcb, free, p);
    var r, rest := RemoveChild(pcb, p), pcb[p].child[1..];
    assert pcb[p].child == [c] + rest;
    assert c !in rest && NoDup(rest);
    assert forall x :: x in pcb[p].child && x != c <==> x in rest;
    Detached(pcb, p);
    assert q != p ==> c !in pcb[q].child;
  }

  /** removeChild field by field. */
  lemma Detached(pcb: seq<Pcb>, p: nat)
    requires TreeWf(pcb) && p < |pcb| && pcb[p].child != []
    ensures var c, r := pcb[p].child[0], RemoveChild(pcb, p);
            forall x: nat :: x < |pcb| ==>
              && r[x].child == (if x == p then pcb[p].child[1..] else pcb[x].child)
              && r[x].parent == (if x == c then None else pcb[x].parent)
              && r[x].pid == pcb[x].pid
  {
  }

  /** Erasing a set closed under children leaves the ancestry of the others alone. */
  lemma {:induction false} DescAfter(pcb: seq<Pcb>, pcb': seq<Pcb>, free: seq<nat>, nextPid: nat, d: set<nat>, p: nat, q: nat)
    requires Forest(pcb, free, nextPid) && TreeWf(pcb') && ErasedTree(pcb, pcb', free, d)
    requires forall x: nat :: Live(pcb, free, x) && pcb[x].parent.Some? && pcb[x].parent.value in d ==> x in d
    requires Live(pcb, free, q) && q !in d
    ensures Desc(pcb', p, q) <==> Desc(pcb, p, q)
    decreases pcb[q].pid
  {
    assert NodeOk(pcb, free, q);
    if q != p && pcb[q].parent.Some? {
      DescAfter(pcb, pcb', free, nextPid, d, p, pcb[q].parent.value);
    }
  }

  lemma ErasedForest(pcb: seq<Pcb>, pcb': seq<Pcb>, free: seq<nat>, free': seq<nat>, nextPid: nat, d: set<nat>)
    requires Forest(pcb, free, nextPid) && TreeWf(pcb') && ErasedTree(pcb, pcb', free, d)
    requires forall x: nat :: Live(pcb, free, x) && pcb[x].parent.Some? && pcb[x].parent.value in d ==> x in d
    requires multiset(free') == multiset(free) + multiset(d)
    ensures forall q: nat :: Live(pcb', free', q) <==> Live(pcb, free, q) && q !in d
    ensures Forest(pcb', free', nextPid)
  {
    FreedLive(pcb, pcb', free, free', d);
    forall q: nat | Live(pcb', free', q)
      ensures NodeOk(pcb', free', q)
    {
      assert NodeOk(pcb, free, q);
      WithoutNoDup(pcb[q].child, d);
      if pcb[q].parent.Some? {
        var r := pcb[q].parent.value;
        assert r !in d;
        WithoutKeeps(pcb[r].child, d, q);
      }
    }
  }

  lemma FreedLive(pcb: seq<Pcb>, pcb': seq<Pcb>, free: seq<nat>, free': seq<nat>, d: set<nat>)
    requires |pcb'| == |pcb| && multiset(free') == multiset(free) + multiset(d)
    ensures forall q: nat :: Live(pcb', free', q) <==> Live(pcb, free, q) && q !in d
  {
    forall q: nat
      ensures q in free' <==> q in free || q in d
    {
      assert q in free' <==> q in multiset(free');
      assert q in free <==> q in multiset(free);
    }
  }

  lemma {:induction false} WithoutKeeps(s: seq<nat>, d: set<nat>, x: nat)
    requires x in s && x !in d
    ensures x in Without(s, d)
  {
    WithoutCount(s, d, x);
    assert x in multiset(s);
    assert x in multiset(Without(s, d));
  }

  // ---------------------------------------------------------------- the recursion

  lemma LeafDescendants(pcb: seq<Pcb>, free: seq<nat>, nextPid: nat, p: nat)
    requires Forest(pcb, free, nextPid) && Live(pcb, free, p) && pcb[p].child == []
    ensures Descendants(pcb, free, p) == {p}
  {
    forall q: nat | Live(pcb, free, q) && Desc(pcb, p, q)
      ensures q == p
    {
      LeafAlone(pcb, free, nextPid, p, q);
    }
  }

  lemma {:induction false} LeafAlone(pcb: seq<Pcb>, free: seq<nat>, nextPid: nat, p: nat, q: nat)
    requires Forest(pcb, free, nextPid) && Live(pcb, free, p) && pcb[p].child == [] && Live(pcb, free, q)
    ensures Desc(pcb, p, q) ==> q == p
    decreases pcb[q].pid
  {
    assert NodeOk(pcb, free, q);
    if q != p && pcb[q].parent.Some? {
      LeafAlone(pcb, free, nextPid, p, pcb[q].parent.value);
    }
  }

  lemma FinishTree(pcb: seq<Pcb>, free: seq<nat>, nextPid: nat, p: nat)
    requires Forest(pcb, free, nextPid) && Live(pcb, free, p)
    ensures ErasedTree(pcb, OutChild(pcb, p), free, {p})
  {
    var r := OutChild(pcb, p);
    assert NodeOk(pcb, free, p);
    forall q: nat | Live(pcb, free, q) && q != p
      ensures r[q].parent == pcb[q].parent && r[q].child == Without(pcb[q].child, {p})
    {
      assert NodeOk(pcb, free, q);
      if pcb[p].parent == Some(q) {
        RemoveIsWithout(pcb[q].child, p);
      } else {
        assert p !in pcb[q].child;
        WithoutNone(pcb[q].child, {p});
      }
    }
  }

  lemma FinishErases(k: Kernel, p: nat)
    requires Loose(k) && Live(k.pcb, k.free, p)
    ensures Erased(k, Finish(k, p), {p})
  {
    FinishTree(k.pcb, k.free, k.nextPid, p);
    FinishQueues(k, p);
    FinishRest(k, p);
  }

  /** The free list, the counters and what stays. */
  lemma FinishRest(k: Kernel, p: nat)
    requires TreeWf(k.pcb) && p < |k.pcb|
    ensures var k' := Finish(k, p);
            && k'.pcb == OutChild(k.pcb, p)
            && multiset(k'.free) == multiset(k.free) + multiset({p})
            && k'.semdFree == k.semdFree + |k.asl| - |k'.asl|
            && k'.curr == (if k.curr.Some? && k.curr.value in {p} then None else k.curr)
            && k'.processCount == k.processCount - |{p}|
            && k' == k.(pcb := k'.pcb, free := k'.free, ready := k'.ready, asl := k'.asl, semdFree := k'.semdFree,
                        curr := k'.curr, processCount := k'.processCount, softBlock := k'.softBlock)
  {
    PrependFree(k.free, p);
  }

  lemma PrependFree(free: seq<nat>, p: nat)
    ensures multiset([p] + free) == multiset(free) + multiset({p}) && |{p}| == 1
  {
    assert multiset([p] + free) == multiset([p]) + multiset(free);
  }

  /** Each of the three branches removes `p` from where it looks, and counts alike. */
  lemma FinishQueues(k: Kernel, p: nat)
    requires Loose(k) && Live(k.pcb, k.free, p)
    ensures var k' := Finish(k, p);
            && k'.ready == Without(k.ready, Queued(k, {p}))
            && k'.asl == Erase(k.asl, {p})
            && k'.softBlock == k.softBlock - |SoftHit(k, {p})|
  {
    var a := k.pcb[p].semAdd;
    assert Blocked(k.asl)[p] + OnCpu(k.curr)[p] <= 1;
    if k.curr == Some(p) {
      EraseNone(k.asl, k.pcb, {p});
      assert Queued(k, {p}) == {} && SoftHit(k, {p}) == {};
      WithoutNone(k.ready, {});
    } else if a != NULL {
      assert forall q: nat :: Blocked(k.asl)[q] <= 1;
      UnlinkIsErase(k.asl, k.pcb, p);
      assert Queued(k, {p}) == {};
      assert SoftHit(k, {p}) == if IsDevice(k.devs, a) then {p} else {};
      WithoutNone(k.ready, {});
    } else {
      NotBlocked(k.asl, k.pcb, p);
      EraseNone(k.asl, k.pcb, {p});
      assert Queued(k, {p}) == {p} && SoftHit(k, {p}) == {};
      RemoveIsWithout(k.ready, p);
    }
  }

  lemma {:induction false} NotBlocked(asl: seq<Semd>, pcb: seq<Pcb>, p: nat)
    requires AslOk(asl, pcb) && p < |pcb| && pcb[p].semAdd == NULL
    ensures p !in Blocked(asl)
  {
    if asl != [] {
      NotBlocked(asl[1..], pcb, p);
      assert p !in asl[0].procq;
    }
  }

  /** Erasing `d` and then `e` erases both. */
  lemma ErasedThen(k: Kernel, k1: Kernel, k2: Kernel, d: set<nat>, e: set<nat>)
    requires Erased(k, k1, d) && Erased(k1, k2, e) && d !! e
    ensures Erased(k, k2, d + e)
  {
    TreeThen(k.pcb, k1.pcb, k2.pcb, k.free, k1.free, d, e);
    WithoutTwice(k.ready, Queued(k, d), Queued(k1, e));
    EraseTwice(k.asl, d, e);
    HitThen(k, k1, d, e);
    assert multiset(d + e) == multiset(d) + multiset(e);
  }

  lemma HitThen(k: Kernel, k1: Kernel, d: set<nat>, e: set<nat>)
    requires d !! e && k1.devs == k.devs && |k1.pcb| == |k.pcb|
    requires forall q :: 0 <= q < |k.pcb| ==> k1.pcb[q].semAdd == k.pcb[q].semAdd
    requires k1.curr == if k.curr.Some? && k.curr.value in d then None else k.curr
    ensures Queued(k, d) + Queued(k1, e) == Queued(k, d + e)
    ensures |SoftHit(k, d)| + |SoftHit(k1, e)| == |SoftHit(k, d + e)|
  {
    assert Queued(k, d) + Queued(k1, e) == Queued(k, d + e);
    assert SoftHit(k, d) !! SoftHit(k1, e);
    assert SoftHit(k, d) + SoftHit(k1, e) == SoftHit(k, d + e);
  }

  lemma TreeThen(pcb: seq<Pcb>, pcb1: seq<Pcb>, pcb2: seq<Pcb>, free: seq<nat>, free1: seq<nat>, d: set<nat>, e: set<nat>)
    requires ErasedTree(pcb, pcb1, free, d) && ErasedTree(pcb1, pcb2, free1, e)
    requires multiset(free1) == multiset(free) + multiset(d)
    ensures ErasedTree(pcb, pcb2, free, d + e)
  {
    FreedLive(pcb, pcb1, free, free1, d);
    forall q: nat | Live(pcb, free, q) && q !in d + e
      ensures pcb2[q].parent == pcb[q].parent && pcb2[q].child == Without(pcb[q].child, d + e)
    {
      WithoutTwice(pcb[q].child, d, e);
    }
  }

  lemma ErasedLoose(k: Kernel, k': Kernel, d: set<nat>)
    requires Loose(k) && Erased(k, k', d) && TreeWf(k'.pcb)
    requires forall x: nat :: Live(k.pcb, k.free, x) && k.pcb[x].parent.Some? && k.pcb[x].parent.value in d ==> x in d
    ensures Loose(k')
  {
    ErasedForest(k.pcb, k'.pcb, k.free, k'.free, k.nextPid, d);
    EraseOk(k.asl, k.pcb, d);
    AslOkFrame(k'.asl, k.pcb, k'.pcb);
    WithoutNoDup(k.ready, Queued(k, d));
    forall q: nat
      ensures Blocked(k'.asl)[q] + OnCpu(k'.curr)[q] <= 1
    {
      EraseCount(k.asl, d, q);
      assert Blocked(k.asl)[q] + OnCpu(k.curr)[q] <= 1;
    }
  }

  lemma DescendantsClosed(pcb: seq<Pcb>, free: seq<nat>, nextPid: nat, p: nat)
    requires Forest(pcb, free, nextPid)
    ensures forall x: nat :: Live(pcb, free, x) && pcb[x].parent.Some? && pcb[x].parent.value in Descendants(pcb, free, p)
              ==> x in Descendants(pcb, free, p)
  {
    forall x: nat | Live(pcb, free, x) && pcb[x].parent.Some? && pcb[x].parent.value in Descendants(pcb, free, p)
      ensures x in Descendants(pcb, free, p)
    {
      assert NodeOk(pcb, free, x);
      assert Desc(pcb, p, x);
    }
  }

  /** After the first child's subtree is gone, what is left below `p` is the rest. */
  lemma SplitDescendants(k: Kernel, p: nat)
    requires Loose(k) && Live(k.pcb, k.free, p) && k.pcb[p].child != []
    ensures var c := k.pcb[p].child[0]; var r := RemoveChild(k.pcb, p);
            && Descendants(k.pcb, k.free, p) == Descendants(r, k.free, c) + Descendants(r, k.free, p)
            && Descendants(r, k.free, c) !! Descendants(r, k.free, p)
  {
    forall q: nat | Live(k.pcb, k.free, q)
      ensures var c := k.pcb[p].child[0]; var r := RemoveChild(k.pcb, p);
              && (Desc(k.pcb, p, q) <==> Desc(r, p, q) || Desc(r, c, q))
              && !(Desc(r, p, q) && Desc(r, c, q))
    {
      DetachDesc(k.pcb, k.free, k.nextPid, p, q);
    }
  }

  lemma DescendantsAfter(k: Kernel, k': Kernel, d: set<nat>, p: nat)
    requires Forest(k.pcb, k.free, k.nextPid) && Erased(k, k', d) && TreeWf(k'.pcb)
    requires forall x: nat :: Live(k.pcb, k.free, x) && k.pcb[x].parent.Some? && k.pcb[x].parent.value in d ==> x in d
    requires d !! Descendants(k.pcb, k.free, p)
    ensures Descendants(k'.pcb, k'.free, p) == Descendants(k.pcb, k.free, p)
  {
    FreedLive(k.pcb, k'.pcb, k.free, k'.free, d);
    forall q: nat | Live(k.pcb, k.free, q) && q !in d
      ensures Desc(k'.pcb, p, q) <==> Desc(k.pcb, p, q)
    {
      DescAfter(k.pcb, k'.pcb, k.free, k.nextPid, d, p, q);
    }
    forall q: nat
      ensures q in Descendants(k'.pcb, k'.free, p) <==> q in Descendants(k.pcb, k.free, p)
    {
      assert Live(k'.pcb, k'.free, q) <==> Live(k.pcb, k.free, q) && q !in d;
    }
  }

  /** On sequences, terminateProcess(p) unlinks each descendant of `p` from where p_semAdd says it
      is, frees it, and leaves everybody else as they were. That the linked lists do the same needs
      p_semAdd to tell the truth: see SubtreeTermination. */
  lemma {:induction false} TerminateErases(k: Kernel, p: nat)
    requires Loose(k) && Live(k.pcb, k.free, p)
    ensures Erased(k, TerminateProcess(k, p), Descendants(k.pcb, k.free, p))
    decreases Links(k.pcb)
  {
    if k.pcb[p].child == [] {
      LeafDescendants(k.pcb, k.free, k.nextPid, p);
      FinishErases(k, p);
    } else {
      var c := k.pcb[p].child[0];
      var k1 := k.(pcb := RemoveChild(k.pcb, p));
      DetachForest(k.pcb, k.free, k.nextPid, p);
      AslOkFrame(k.asl, k.pcb, k1.pcb);
      var d, e := Descendants(k1.pcb, k.free, c), Descendants(k1.pcb, k.free, p);
      SplitDescendants(k, p);
      TerminateErases(k1, c);
      var k2 := TerminateProcess(k1, c);
      DescendantsClosed(k1.pcb, k.free, k.nextPid, c);
      ErasedLoose(k1, k2, d);
      DescendantsAfter(k1, k2, d, p);
      FreedLive(k1.pcb, k2.pcb, k1.free, k2.free, d);
      assert Desc(k1.pcb, p, p) && p in e;
      assert Desc(k1.pcb, c, c) && c in d;
      TerminateErases(k2, p);
      var k3 := TerminateProcess(k2, p);
      ErasedThen(k1, k2, k3, d, e);
      Reattach(k, k3, p, d + e);
    }
  }

  lemma Reattach(k: Kernel, k': Kernel, p: nat, d: set<nat>)
    requires TreeWf(k.pcb) && p < |k.pcb| && k.pcb[p].child != [] && p in d && k.pcb[p].child[0] in d
    requires Erased(k.(pcb := RemoveChild(k.pcb, p)), k', d)
    ensures Erased(k, k', d)
  {
    var k1 := k.(pcb := RemoveChild(k.pcb, p));
    ReattachTree(k.pcb, k'.pcb, k.free, p, d);
    assert Queued(k1, d) == Queued(k, d);
    assert SoftHit(k1, d) == SoftHit(k, d);
  }

  lemma ReattachTree(pcb: seq<Pcb>, pcb': seq<Pcb>, free: seq<nat>, p: nat, d: set<nat>)
    requires TreeWf(pcb) && p < |pcb| && pcb[p].child != [] && p in d && pcb[p].child[0] in d
    requires ErasedTree(RemoveChild(pcb, p), pcb', free, d)
    ensures ErasedTree(pcb, pcb', free, d)
    ensures forall q :: 0 <= q < |pcb| ==> RemoveChild(pcb, p)[q].semAdd == pcb[q].semAdd
  {
    assert pcb[p].child[0] in pcb[p].child;
    assert forall q: nat :: Live(RemoveChild(pcb, p), free, q) <==> Live(pcb, free, q);
  }

  /** The free list grows at its head, and `p`, which is freed last, ends up in front. */
  lemma {:induction false} FreedOnTop(k: Kernel, p: nat)
    requires TreeWf(k.pcb) && p < |k.pcb|
    ensures var f := TerminateProcess(k, p).free;
            |f| > |k.free| && f[0] == p && f[|f| - |k.free|..] == k.free
    ensures TerminateProcess(k, p).nextPid == k.nextPid
    decreases Links(k.pcb)
  {
    if k.pcb[p].child != [] {
      var c := k.pcb[p].child[0];
      assert c in k.pcb[p].child;
      var k1 := k.(pcb := RemoveChild(k.pcb, p));
      var k2 := TerminateProcess(k1, c);
      FreedOnTop(k1, c);
      FreedOnTop(k2, p);
      SuffixOf(k.free, k2.free, TerminateProcess(k2, p).free);
    }
  }

  lemma SuffixOf(a: seq<nat>, b: seq<nat>, c: seq<nat>)
    requires |a| <= |b| <= |c| && b[|b| - |a|..] == a && c[|c| - |b|..] == b
    ensures c[|c| - |a|..] == a
  {
    assert c[|c| - |a|..] == c[|c| - |b|..][|b| - |a|..];
  }
}
