/** What holds of the nucleus between two handlers. */
module Invariant {
  import opened Queues
  import opened NucleusSpec

  // ---------------------------------------------------------------- where the PCBs are

  function OnCpu(curr: Option<nat>): multiset<nat> {
    if curr.Some? then multiset{curr.value} else multiset{}
  }

  /** Every appearance of a PCB in the free list, the ready queue, a semaphore queue or currProc. */
  function Everybody(k: Kernel): multiset<nat> {
    multiset(k.free) + multiset(k.ready) + Blocked(k.asl) + OnCpu(k.curr)
  }

  /** Each PCB of the table is in exactly one place, and nothing else is anywhere. */
  ghost predicate Partition(k: Kernel) {
    forall q: nat :: Everybody(k)[q] == if q < |k.pcb| then 1 else 0
  }

  // ---------------------------------------------------------------- semaphores

  /** The processes queued on a device semaphore or on the pseudo-clock. */
  function DevWaiters(devs: int, asl: seq<Semd>): multiset<nat> {
    if asl == [] then multiset{}
    else (if IsDevice(devs, asl[0].key) then multiset(asl[0].procq) else multiset{}) +
         DevWaiters(devs, asl[1..])
  }

  ghost predicate SemdOk(s: Semd, pcb: seq<Pcb>) {
    && s.key != NULL
    && s.procq != []
    && forall q :: q in s.procq ==> q < |pcb| && pcb[q].semAdd == s.key
  }

  /** Active descriptors have distinct keys and waiters, who know what they wait for. */
  ghost predicate AslOk(asl: seq<Semd>, pcb: seq<Pcb>) {
    asl == [] || (SemdOk(asl[0], pcb) && asl[0].key !in Keys(asl[1..]) && AslOk(asl[1..], pcb))
  }

  /** Outside the device semaphores, a positive value means that nobody waits. */
  ghost predicate SemLaw(k: Kernel) {
    forall a :: a in Keys(k.asl) && !IsDevice(k.devs, a) ==> Val(k, a) <= 0
  }

  // ---------------------------------------------------------------- process tree

  predicate Live(pcb: seq<Pcb>, free: seq<nat>, q: nat) { q < |pcb| && q !in free }

  ghost predicate NodeOk(pcb: seq<Pcb>, free: seq<nat>, q: nat)
    requires q < |pcb|
  {
    var x := pcb[q];
    && x.pid > 0
    && (x.parent.Some? ==>
          && Live(pcb, free, x.parent.value)
          && q in pcb[x.parent.value].child
          && pcb[x.parent.value].pid < x.pid)
    && NoDup(x.child)
    && forall c :: c in x.child ==> Live(pcb, free, c) && pcb[c].parent == Some(q)
  }

  /** Child lists and parents agree, pids grow downward and tell live processes apart. */
  ghost predicate Forest(pcb: seq<Pcb>, free: seq<nat>, nextPid: nat) {
    && (forall q: nat :: Live(pcb, free, q) ==> NodeOk(pcb, free, q) && pcb[q].pid < nextPid)
    && (forall q: nat, r: nat :: Live(pcb, free, q) && Live(pcb, free, r) && pcb[q].pid == pcb[r].pid ==> q == r)
    && TreeWf(pcb)
  }

  /** Only the first process has no parent. */
  ghost predicate OneRoot(pcb: seq<Pcb>, free: seq<nat>) {
    forall q: nat :: Live(pcb, free, q) && pcb[q].parent.None? ==> pcb[q].pid == 1
  }

  // ---------------------------------------------------------------- the invariant

  ghost predicate ReadySorted(pcb: seq<Pcb>, ready: seq<nat>) {
    InRange(ready, |pcb|) && Descending(Prios(pcb, ready))
  }

  ghost predicate ModeOk(k: Kernel) {
    match k.mode
    case Running => k.curr.Some?
    case Waiting => k.curr.None? && k.ready == [] && k.processCount != 0 && k.softBlock > 0
    case Halted => k.curr.None? && k.ready == [] && k.processCount == 0
    case Panicked => k.curr.None? && k.ready == [] && k.processCount != 0 && k.softBlock <= 0
  }

  ghost predicate SoftOk(k: Kernel) { k.softBlock == |DevWaiters(k.devs, k.asl)| }

  /** Everything but the soft-block counter and the scheduler's verdict. */
  ghost predicate Base(k: Kernel) {
    && Wf(k) && k.devs > 0 && k.nextPid > 0
    && Partition(k)
    && k.processCount == |k.pcb| - |k.free|
    && AslOk(k.asl, k.pcb) && k.semdFree + |k.asl| == |k.pcb|
    && SemLaw(k)
    && Forest(k.pcb, k.free, k.nextPid) && OneRoot(k.pcb, k.free)
    && ReadySorted(k.pcb, k.ready)
  }

  ghost predicate Inv(k: Kernel) { Base(k) && SoftOk(k) && ModeOk(k) }

  // ---------------------------------------------------------------- consequences

  lemma {:induction false} AslOkRange(asl: seq<Semd>, pcb: seq<Pcb>)
    requires AslOk(asl, pcb)
    ensures AslInRange(asl, |pcb|)
    ensures |asl| <= |Blocked(asl)|
  {
    if asl != [] {
      AslOkRange(asl[1..], pcb);
    }
  }

  lemma PlaceOf(k: Kernel, q: nat)
    requires Partition(k)
    ensures q in k.free || q in k.ready || q in Blocked(k.asl) || k.curr == Some(q) <==> q < |k.pcb|
    ensures q in k.free ==> q !in k.ready && q !in Blocked(k.asl) && k.curr != Some(q)
    ensures q in k.ready ==> q !in Blocked(k.asl) && k.curr != Some(q)
    ensures q in Blocked(k.asl) ==> k.curr != Some(q)
  {
    assert Everybody(k)[q] == multiset(k.free)[q] + multiset(k.ready)[q] + Blocked(k.asl)[q] + OnCpu(k.curr)[q];
    assert q in k.free <==> multiset(k.free)[q] > 0;
    assert q in k.ready <==> multiset(k.ready)[q] > 0;
  }

  lemma PartitionNoDup(k: Kernel)
    requires Partition(k)
    ensures NoDup(k.free) && NoDup(k.ready)
  {
    forall q: nat
      ensures multiset(k.free)[q] <= 1 && multiset(k.ready)[q] <= 1
    {
      assert Everybody(k)[q] == multiset(k.free)[q] + multiset(k.ready)[q] + Blocked(k.asl)[q] + OnCpu(k.curr)[q];
    }
    CountNoDup(k.free);
    CountNoDup(k.ready);
  }

  lemma PartitionWf(k: Kernel)
    requires Partition(k) && AslOk(k.asl, k.pcb) && TreeWf(k.pcb)
    ensures Wf(k)
  {
    AslOkRange(k.asl, k.pcb);
    forall q: nat
      ensures q in k.free || q in k.ready || k.curr == Some(q) ==> q < |k.pcb|
    {
      PlaceOf(k, q);
    }
  }

  // ---------------------------------------------------------------- frames

  /** A change of time or result register touches no link. */
  lemma {:induction false} AslOkFrame(asl: seq<Semd>, pcb: seq<Pcb>, pcb': seq<Pcb>)
    requires AslOk(asl, pcb) && |pcb'| == |pcb|
    requires forall q :: 0 <= q < |pcb| && q in Blocked(asl) ==> pcb'[q].semAdd == pcb[q].semAdd
    ensures AslOk(asl, pcb')
  {
    if asl != [] {
      assert forall q :: q in asl[0].procq ==> q in multiset(asl[0].procq);
      AslOkFrame(asl[1..], pcb, pcb');
    }
  }

  ghost predicate SameTree(pcb: seq<Pcb>, pcb': seq<Pcb>) {
    && |pcb'| == |pcb|
    && forall q :: 0 <= q < |pcb| ==>
         && pcb'[q].parent == pcb[q].parent && pcb'[q].child == pcb[q].child
         && pcb'[q].pid == pcb[q].pid && pcb'[q].prio == pcb[q].prio
  }

  lemma ForestFrame(pcb: seq<Pcb>, pcb': seq<Pcb>, free: seq<nat>, nextPid: nat, ready: seq<nat>)
    requires SameTree(pcb, pcb') && ReadySorted(pcb, ready)
    requires Forest(pcb, free, nextPid) && OneRoot(pcb, free)
    ensures Forest(pcb', free, nextPid) && OneRoot(pcb', free)
    ensures ReadySorted(pcb', ready) && Prios(pcb', ready) == Prios(pcb, ready)
  {
    assert forall i :: 0 <= i < |ready| ==> ready[i] in ready;
    assert Prios(pcb', ready) == Prios(pcb, ready);
    assert forall q: nat :: Live(pcb', free, q) <==> Live(pcb, free, q);
    forall q: nat | Live(pcb', free, q)
      ensures NodeOk(pcb', free, q)
    {
      assert NodeOk(pcb, free, q);
    }
  }

  /** Changing fields no clause reads keeps the invariant. */
  lemma PcbFrame(k: Kernel, pcb': seq<Pcb>)
    requires Base(k) && SameTree(k.pcb, pcb')
    requires forall q :: 0 <= q < |k.pcb| && q in Blocked(k.asl) ==> pcb'[q].semAdd == k.pcb[q].semAdd
    ensures Base(k.(pcb := pcb'))
  {
    var k' := k.(pcb := pcb');
    AslOkFrame(k.asl, k.pcb, pcb');
    ForestFrame(k.pcb, pcb', k.free, k.nextPid, k.ready);
    assert Everybody(k') == Everybody(k);
    assert forall a :: Val(k', a) == Val(k, a);
  }

  // ---------------------------------------------------------------- ready queue

  lemma InsertSorted(pcb: seq<Pcb>, ready: seq<nat>, p: nat)
    requires ReadySorted(pcb, ready) && p < |pcb|
    ensures ReadySorted(pcb, InsertProcQ(pcb, ready, p))
  {
    var ps := Prios(pcb, ready);
    SlotUnique(ps, pcb[p].prio, Slot(ps, pcb[p].prio));
    InsertPrios(pcb, ready, p);
  }

  lemma InsertPrios(pcb: seq<Pcb>, ready: seq<nat>, p: nat)
    requires InRange(ready, |pcb|) && p < |pcb|
    ensures var ps := Prios(pcb, ready);
            Prios(pcb, InsertProcQ(pcb, ready, p)) == InsertAt(ps, Slot(ps, pcb[p].prio), pcb[p].prio)
  {
    var ps := Prios(pcb, ready);
    var i := Slot(ps, pcb[p].prio);
    var r := InsertProcQ(pcb, ready, p);
    forall j | 0 <= j < |r|
      ensures Prios(pcb, r)[j] == InsertAt(ps, i, pcb[p].prio)[j]
    {
      assert r[j] in r;
      assert r[j] == if j < i then ready[j] else if j == i then p else ready[j - 1];
    }
  }

  lemma TailSorted(pcb: seq<Pcb>, ready: seq<nat>)
    requires ReadySorted(pcb, ready) && ready != []
    ensures ReadySorted(pcb, ready[1..])
  {
    var rest := ready[1..];
    assert forall q :: q in rest ==> q in ready;
    assert forall j :: 0 <= j < |rest| ==> rest[j] in rest;
    assert Prios(pcb, rest) == Prios(pcb, ready)[1..];
  }

  lemma {:induction false} WithoutSorted(pcb: seq<Pcb>, ready: seq<nat>, d: set<nat>)
    requires ReadySorted(pcb, ready)
    ensures ReadySorted(pcb, Without(ready, d))
  {
    if ready != [] {
      TailSorted(pcb, ready);
      WithoutSorted(pcb, ready[1..], d);
      var w := Without(ready[1..], d);
      assert forall j :: 0 <= j < |w| ==> w[j] in w;
      assert forall j :: 0 <= j < |ready| ==> ready[j] in ready;
      forall q | q in w
        ensures pcb[q].prio <= pcb[ready[0]].prio
      {
        var j :| 0 <= j < |ready[1..]| && ready[1..][j] == q;
        assert Prios(pcb, ready)[j + 1] <= Prios(pcb, ready)[0];
      }
      if ready[0] !in d {
        var r := [ready[0]] + w;
        assert forall q :: q in r ==> q in ready;
        assert Prios(pcb, r) == [pcb[ready[0]].prio] + Prios(pcb, w);
      }
    }
  }

  // ---------------------------------------------------------------- semaphore queues

  lemma {:induction false} EnqueueBlocked(asl: seq<Semd>, key: int, p: nat)
    ensures Blocked(Enqueue(asl, key, p)) == Blocked(asl) + multiset{p}
  {
    var r := Enqueue(asl, key, p);
    if asl == [] {
      assert r[1..] == [];
    } else if asl[0].key == key {
      assert r[1..] == asl[1..];
      assert multiset(asl[0].procq + [p]) == multiset(asl[0].procq) + multiset{p};
    } else {
      assert r[1..] == Enqueue(asl[1..], key, p);
      EnqueueBlocked(asl[1..], key, p);
    }
  }

  lemma {:induction false} EnqueueDev(devs: int, asl: seq<Semd>, key: int, p: nat)
    ensures DevWaiters(devs, Enqueue(asl, key, p)) ==
            DevWaiters(devs, asl) + (if IsDevice(devs, key) then multiset{p} else multiset{})
  {
    var r := Enqueue(asl, key, p);
    if asl == [] {
      assert r[1..] == [];
    } else if asl[0].key == key {
      assert r[1..] == asl[1..];
      assert multiset(asl[0].procq + [p]) == multiset(asl[0].procq) + multiset{p};
    } else {
      assert r[1..] == Enqueue(asl[1..], key, p);
      EnqueueDev(devs, asl[1..], key, p);
    }
  }

  lemma {:induction false} EnqueueKeys(asl: seq<Semd>, key: int, p: nat)
    ensures Keys(Enqueue(asl, key, p)) == Keys(asl) + {key}
    ensures |Enqueue(asl, key, p)| == |asl| + if key in Keys(asl) then 0 else 1
    ensures Waiters(Enqueue(asl, key, p), key) == Waiters(asl, key) + [p]
  {
    if asl != [] && asl[0].key != key {
      EnqueueKeys(asl[1..], key, p);
    }
  }

  lemma {:induction false} EnqueueOther(asl: seq<Semd>, key: int, p: nat, a: int)
    requires a != key
    ensures Waiters(Enqueue(asl, key, p), a) == Waiters(asl, a)
  {
    if asl != [] && asl[0].key != key {
      EnqueueOther(asl[1..], key, p, a);
    }
  }

  lemma {:induction false} EnqueueOk(asl: seq<Semd>, key: int, p: nat, pcb: seq<Pcb>)
    requires AslOk(asl, pcb) && p < |pcb| && key != NULL && pcb[p].semAdd == key
    ensures AslOk(Enqueue(asl, key, p), pcb)
  {
    if asl != [] {
      if asl[0].key == key {
        assert forall q :: q in asl[0].procq + [p] ==> q in asl[0].procq || q == p;
      } else {
        EnqueueOk(asl[1..], key, p, pcb);
        EnqueueKeys(asl[1..], key, p);
      }
    }
  }

  lemma {:induction false} ActiveKey(asl: seq<Semd>, pcb: seq<Pcb>, key: int)
    requires AslOk(asl, pcb)
    ensures key in Keys(asl) <==> Waiters(asl, key) != []
  {
    if asl != [] {
      ActiveKey(asl[1..], pcb, key);
    }
  }

  lemma {:induction false} DequeueDev(devs: int, asl: seq<Semd>, key: int)
    requires Waiters(asl, key) != []
    ensures DevWaiters(devs, asl) == DevWaiters(devs, Dequeue(asl, key)) +
            if IsDevice(devs, key) then multiset{Waiters(asl, key)[0]} else multiset{}
  {
    if asl[0].key != key {
      assert Dequeue(asl, key)[1..] == Dequeue(asl[1..], key);
      DequeueDev(devs, asl[1..], key);
    } else {
      DequeueDevHere(devs, asl, key);
    }
  }

  lemma DequeueDevHere(devs: int, asl: seq<Semd>, key: int)
    requires asl != [] && asl[0].key == key && asl[0].procq != []
    ensures DevWaiters(devs, asl) == DevWaiters(devs, Dequeue(asl, key)) +
            if IsDevice(devs, key) then multiset{asl[0].procq[0]} else multiset{}
  {
    var s := asl[0];
    var r := Dequeue(asl, key);
    HeadTail(s.procq);
    if |s.procq| == 1 {
      assert r == asl[1..];
    } else {
      assert r[0] == Semd(key, s.procq[1..]) && r[1..] == asl[1..];
    }
  }

  lemma {:induction false} DequeueKeys(asl: seq<Semd>, key: int, pcb: seq<Pcb>)
    requires AslOk(asl, pcb) && Waiters(asl, key) != []
    ensures Keys(Dequeue(asl, key)) == if |Waiters(asl, key)| == 1 then Keys(asl) - {key} else Keys(asl)
    ensures Waiters(Dequeue(asl, key), key) == Waiters(asl, key)[1..]
  {
    var s := asl[0];
    var r := Dequeue(asl, key);
    if s.key != key {
      assert r[1..] == Dequeue(asl[1..], key);
      DequeueKeys(asl[1..], key, pcb);
    } else if |s.procq| == 1 {
      assert r == asl[1..];
      ActiveKey(asl[1..], pcb, key);
    } else {
      assert r[1..] == asl[1..];
    }
  }

  lemma {:induction false} DequeueOk(asl: seq<Semd>, key: int, pcb: seq<Pcb>)
    requires AslOk(asl, pcb) && Waiters(asl, key) != []
    ensures AslOk(Dequeue(asl, key), pcb)
  {
    var s := asl[0];
    var r := Dequeue(asl, key);
    if s.key != key {
      assert r[1..] == Dequeue(asl[1..], key);
      DequeueOk(asl[1..], key, pcb);
      DequeueKeys(asl[1..], key, pcb);
    } else if |s.procq| == 1 {
      assert r == asl[1..];
    } else {
      HeadTail(s.procq);
      assert r[0] == Semd(key, s.procq[1..]) && r[1..] == asl[1..];
    }
  }

  lemma {:induction false} DequeueOther(asl: seq<Semd>, key: int, a: int)
    requires a != key
    ensures Waiters(Dequeue(asl, key), a) == Waiters(asl, a)
  {
    if asl != [] {
      if asl[0].key != key {
        DequeueOther(asl[1..], key, a);
      } else if |asl[0].procq| <= 1 {
        assert Dequeue(asl, key) == asl[1..];
      }
    }
  }

  lemma {:induction false} WaiterBlocked(asl: seq<Semd>, key: int)
    ensures forall q :: q in Waiters(asl, key) ==> q in Blocked(asl)
  {
    if asl != [] {
      WaiterBlocked(asl[1..], key);
    }
  }

  /** insertBlocked finds a descriptor whenever it is called for the running process: every
      active descriptor has a waiter, and the caller is not one of them. */
  lemma BlockingNeverFails(k: Kernel, key: int)
    requires Base(k) && k.curr.Some?
    ensures |Enqueue(k.asl, key, k.curr.value)| - |k.asl| <= k.semdFree
    ensures Block(k, key).asl == Enqueue(k.asl, key, k.curr.value)
    ensures key in Keys(Block(k, key).asl) && k.curr.value in Waiters(Block(k, key).asl, key)
  {
    var p := k.curr.value;
    EnqueueKeys(k.asl, key, p);
    AslOkRange(k.asl, k.pcb);
    assert p in Waiters(Enqueue(k.asl, key, p), key) by {
      assert (Waiters(k.asl, key) + [p])[|Waiters(k.asl, key)|] == p;
    }
    forall q: nat
      ensures Blocked(k.asl)[q] <= if q < |k.pcb| && q != p then 1 else 0
    {
      assert Everybody(k)[q] == multiset(k.free)[q] + multiset(k.ready)[q] + Blocked(k.asl)[q] + OnCpu(k.curr)[q];
    }
    SmallMultiset(Blocked(k.asl), |k.pcb|, p);
  }

  function Below(n: nat): set<nat> { if n == 0 then {} else Below(n - 1) + {n - 1} }

  lemma {:induction false} BelowSize(n: nat)
    ensures |Below(n)| == n && forall q: nat :: q in Below(n) <==> q < n
  {
    if n > 0 {
      BelowSize(n - 1);
    }
  }

  /** A multiset without repetitions inside 0..n that misses `p` has fewer than n members. */
  lemma SmallMultiset(m: multiset<nat>, n: nat, p: nat)
    requires p < n && forall q: nat :: m[q] <= if q < n && q != p then 1 else 0
    ensures |m| < n
  {
    BelowSize(n);
    var rest := Below(n) - {p};
    assert m <= multiset(rest);
    assert |rest| == n - 1;
    assert |multiset(rest)| == |rest|;
    SubMultiset(m, multiset(rest));
  }

  lemma SubMultiset(a: multiset<nat>, b: multiset<nat>)
    requires a <= b
    ensures |a| <= |b|
  {
    assert b == a + (b - a);
  }
}
