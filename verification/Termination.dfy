/** When terminating a subtree keeps the invariant, and when it does not. */
module Termination {
  import opened Queues
  import opened NucleusSpec
  import opened Invariant
  import opened Handlers
  import opened Subtree

  /** No ready process of `d` carries the address of a semaphore it once waited on. */
  ghost predicate ReadyClean(k: Kernel, d: set<nat>) {
    forall q :: q in d && q in k.ready && q < |k.pcb| ==> k.pcb[q].semAdd == NULL
  }

  lemma BaseLoose(k: Kernel)
    requires Base(k)
    ensures Loose(k)
  {
    PartitionNoDup(k);
    forall q: nat
      ensures Blocked(k.asl)[q] + OnCpu(k.curr)[q] <= 1
    {
      assert Everybody(k)[q] == multiset(k.free)[q] + multiset(k.ready)[q] + Blocked(k.asl)[q] + OnCpu(k.curr)[q];
    }
  }

  lemma {:induction false} BlockedDev(devs: int, asl: seq<Semd>, pcb: seq<Pcb>, q: nat)
    requires AslOk(asl, pcb) && q < |pcb|
    ensures DevWaiters(devs, asl)[q] == if IsDevice(devs, pcb[q].semAdd) then Blocked(asl)[q] else 0
  {
    if asl != [] {
      BlockedDev(devs, asl[1..], pcb, q);
      assert q in multiset(asl[0].procq) ==> q in asl[0].procq;
    }
  }

  /** The erased state keeps the partition. */
  lemma ErasedPartition(k: Kernel, k': Kernel, d: set<nat>)
    requires Partition(k) && Erased(k, k', d) && ReadyClean(k, d)
    requires forall q: nat :: q in d ==> Live(k.pcb, k.free, q)
    ensures Partition(k')
  {
    forall q: nat
      ensures Everybody(k')[q] == if q < |k'.pcb| then 1 else 0
    {
      PlaceOf(k, q);
      EraseCount(k.asl, d, q);
      WithoutCount(k.ready, Queued(k, d), q);
      assert q in k.ready <==> multiset(k.ready)[q] > 0;
      assert q in k.free <==> multiset(k.free)[q] > 0;
      assert Everybody(k)[q] == multiset(k.free)[q] + multiset(k.ready)[q] + Blocked(k.asl)[q] + OnCpu(k.curr)[q];
      assert Everybody(k')[q] == multiset(k'.free)[q] + multiset(k'.ready)[q] + Blocked(k'.asl)[q] + OnCpu(k'.curr)[q];
      assert multiset(k'.free)[q] == multiset(k.free)[q] + multiset(d)[q];
    }
  }

  lemma ErasedSoft(k: Kernel, k': Kernel, d: set<nat>)
    requires Base(k) && SoftOk(k) && Erased(k, k', d) && ReadyClean(k, d)
    requires forall q: nat :: q in d ==> Live(k.pcb, k.free, q)
    ensures SoftOk(k')
  {
    var hit: set<nat> := SoftHit(k, d);
    var hits: multiset<nat> := multiset(hit);
    forall q: nat
      ensures DevWaiters(k.devs, k.asl)[q] == DevWaiters(k.devs, k'.asl)[q] + hits[q]
    {
      EraseDev(k.devs, k.asl, d, q);
      if q in d {
        BlockedDev(k.devs, k.asl, k.pcb, q);
        PlaceOf(k, q);
        assert Everybody(k)[q] == multiset(k.free)[q] + multiset(k.ready)[q] + Blocked(k.asl)[q] + OnCpu(k.curr)[q];
        assert q in Blocked(k.asl) ==> k.pcb[q].semAdd != NULL by {
          if k.pcb[q].semAdd == NULL {
            NotBlocked(k.asl, k.pcb, q);
          }
        }
      }
    }
    assert DevWaiters(k.devs, k.asl) == DevWaiters(k.devs, k'.asl) + hits;
    assert |hits| == |hit|;
  }

  /** Those of `d` that wait for a device or the tick. */
  function AwaitingDevice(k: Kernel, d: set<nat>): set<nat> {
    set q | q in d && q in DevWaiters(k.devs, k.asl)
  }

  /** `k'` is `k` with the processes `d` gone from every list and counter and everybody else as they
      were, in the same order. */
  ghost predicate Gone(k: Kernel, k': Kernel, d: set<nat>) {
    && ErasedTree(k.pcb, k'.pcb, k.free, d)
    && multiset(k'.free) == multiset(k.free) + multiset(d)
    && k'.ready == Without(k.ready, d)
    && k'.asl == Erase(k.asl, d)
    && k'.semdFree == k.semdFree + |k.asl| - |k'.asl|
    && k'.curr == (if k.curr.Some? && k.curr.value in d then None else k.curr)
    && k'.processCount == k.processCount - |d|
    && k'.softBlock == k.softBlock - |AwaitingDevice(k, d)|
    && k' == k.(pcb := k'.pcb, free := k'.free, ready := k'.ready, asl := k'.asl, semdFree := k'.semdFree,
                curr := k'.curr, processCount := k'.processCount, softBlock := k'.softBlock)
  }

  lemma CleanQueued(k: Kernel, d: set<nat>)
    requires Partition(k) && ReadyClean(k, d)
    ensures Without(k.ready, Queued(k, d)) == Without(k.ready, d)
  {
    forall q | q in k.ready
      ensures q in d <==> q in Queued(k, d)
    {
      PlaceOf(k, q);
    }
    WithoutSame(k.ready, Queued(k, d), d);
  }

  lemma CleanSoft(k: Kernel, d: set<nat>)
    requires Partition(k) && AslOk(k.asl, k.pcb) && ReadyClean(k, d)
    requires forall q: nat :: q in d ==> Live(k.pcb, k.free, q)
    ensures SoftHit(k, d) == AwaitingDevice(k, d)
  {
    forall q: nat | q in d
      ensures q in SoftHit(k, d) <==> q in DevWaiters(k.devs, k.asl)
    {
      PlaceOf(k, q);
      BlockedDev(k.devs, k.asl, k.pcb, q);
      if k.pcb[q].semAdd == NULL {
        NotBlocked(k.asl, k.pcb, q);
      }
    }
  }

  /** terminateProcess(p), when no ready process below `p` has a stale p_semAdd, removes exactly `p`
      and its descendants from wherever they are and frees them. */
  lemma SubtreeTermination(k: Kernel, p: nat)
    requires Base(k) && Live(k.pcb, k.free, p)
    requires ReadyClean(k, Descendants(k.pcb, k.free, p))
    ensures Gone(k, TerminateProcess(k, p), Descendants(k.pcb, k.free, p))
  {
    var d := Descendants(k.pcb, k.free, p);
    BaseLoose(k);
    TerminateErases(k, p);
    CleanQueued(k, d);
    CleanSoft(k, d);
  }

  /** Terminating `p` keeps the invariant when nobody ready below `p` has a stale p_semAdd. */
  lemma TerminateBase(k: Kernel, p: nat)
    requires Base(k) && SoftOk(k) && Live(k.pcb, k.free, p)
    requires ReadyClean(k, Descendants(k.pcb, k.free, p))
    ensures Base(TerminateProcess(k, p)) && SoftOk(TerminateProcess(k, p))
  {
    var d := Descendants(k.pcb, k.free, p);
    var k' := TerminateProcess(k, p);
    BaseLoose(k);
    TerminateErases(k, p);
    DescendantsClosed(k.pcb, k.free, k.nextPid, p);
    ErasedParts(k, k', d);
    ErasedPartition(k, k', d);
    ErasedSoft(k, k', d);
    ErasedCounts(k, k', d);
    Assemble(k, k');
  }

  lemma ErasedCounts(k: Kernel, k': Kernel, d: set<nat>)
    requires Base(k) && Erased(k, k', d)
    ensures k'.processCount == |k'.pcb| - |k'.free| && k'.semdFree + |k'.asl| == |k'.pcb|
    ensures k'.devs == k.devs && k'.nextPid == k.nextPid && k'.sem == k.sem
  {
    FreeCount(k, k', d);
  }

  lemma Assemble(k: Kernel, k': Kernel)
    requires Base(k) && Partition(k') && AslOk(k'.asl, k'.pcb) && Keys(k'.asl) <= Keys(k.asl)
    requires Forest(k'.pcb, k'.free, k.nextPid) && OneRoot(k'.pcb, k'.free) && ReadySorted(k'.pcb, k'.ready)
    requires k'.processCount == |k'.pcb| - |k'.free| && k'.semdFree + |k'.asl| == |k'.pcb|
    requires k'.devs == k.devs && k'.nextPid == k.nextPid && k'.sem == k.sem
    ensures Base(k')
  {
    PartitionWf(k');
    assert SemLaw(k') by { assert forall a :: Val(k', a) == Val(k, a); }
  }

  lemma ErasedParts(k: Kernel, k': Kernel, d: set<nat>)
    requires Base(k) && Erased(k, k', d) && TreeWf(k'.pcb)
    requires forall x: nat :: Live(k.pcb, k.free, x) && k.pcb[x].parent.Some? && k.pcb[x].parent.value in d ==> x in d
    ensures Forest(k'.pcb, k'.free, k.nextPid) && OneRoot(k'.pcb, k'.free)
    ensures AslOk(k'.asl, k'.pcb) && Keys(k'.asl) <= Keys(k.asl)
    ensures ReadySorted(k'.pcb, k'.ready)
  {
    ErasedForest(k.pcb, k'.pcb, k.free, k'.free, k.nextPid, d);
    EraseOk(k.asl, k.pcb, d);
    AslOkFrame(k'.asl, k.pcb, k'.pcb);
    WithoutSorted(k.pcb, k.ready, Queued(k, d));
    PriosFrame(k.pcb, k'.pcb, k'.ready);
  }

  lemma FreeCount(k: Kernel, k': Kernel, d: set<nat>)
    requires multiset(k'.free) == multiset(k.free) + multiset(d)
    ensures |k'.free| == |k.free| + |d|
  {
    assert |multiset(k'.free)| == |multiset(k.free)| + |multiset(d)|;
  }

  /** For the sequences, a stale ready process ends up both free and ready. This is what the proof
      that the invariant fails needs; the linked lists are then no sequences any more. */
  lemma StaleIsTwice(k: Kernel, p: nat, q: nat)
    requires Base(k) && Live(k.pcb, k.free, p)
    requires q in Descendants(k.pcb, k.free, p) && q in k.ready && k.pcb[q].semAdd != NULL
    ensures q in TerminateProcess(k, p).free && q in TerminateProcess(k, p).ready
  {
    var d := Descendants(k.pcb, k.free, p);
    BaseLoose(k);
    TerminateErases(k, p);
    var k' := TerminateProcess(k, p);
    WithoutKeeps(k.ready, Queued(k, d), q);
    assert q in multiset(k'.free);
  }

  /** nsys2 on target `p`: the invariant survives exactly when the caller is among the
      victims and no ready victim has a stale p_semAdd. */
  lemma TerminateInv(k: Kernel, p: nat, t: int)
    requires Inv(k) && k.curr.Some? && Live(k.pcb, k.free, p)
    ensures Inv(Dispatch(TerminateProcess(k, p), t)) <==>
              var d := Descendants(k.pcb, k.free, p); k.curr.value in d && ReadyClean(k, d)
  {
    var d := Descendants(k.pcb, k.free, p);
    var k' := TerminateProcess(k, p);
    BaseLoose(k);
    TerminateErases(k, p);
    if !ReadyClean(k, d) {
      var q :| q in d && q in k.ready && q < |k.pcb| && k.pcb[q].semAdd != NULL;
      StaleIsTwice(k, p, q);
      TwiceStays(k', q, t);
    } else {
      TerminateBase(k, p);
      if k.curr.value in d {
        DispatchInv(k', t);
      } else {
        CallerLost(k', t);
      }
    }
  }

  lemma TwiceStays(k: Kernel, q: nat, t: int)
    requires q in k.free && q in k.ready
    ensures !Partition(Dispatch(k, t))
  {
    var k' := Dispatch(k, t);
    HeadTail(k.ready);
    assert multiset(k'.ready) + OnCpu(k'.curr) == multiset(k.ready);
    assert q in multiset(k.ready) && q in multiset(k.free);
    assert multiset(k.ready)[q] == multiset(k'.ready)[q] + OnCpu(k'.curr)[q];
    assert Everybody(k')[q] >= 2;
  }

  lemma CallerLost(k: Kernel, t: int)
    requires Base(k) && k.curr.Some?
    ensures !Inv(Dispatch(k, t))
  {
    var k' := Dispatch(k, t);
    var c := k.curr.value;
    if k.ready != [] {
      CallerNowhere(k, t);
    }
  }

  lemma CallerNowhere(k: Kernel, t: int)
    requires Partition(k) && k.curr.Some? && k.ready != []
    ensures Everybody(Dispatch(k, t))[k.curr.value] == 0 && !Partition(Dispatch(k, t))
  {
    var k' := Dispatch(k, t);
    var c := k.curr.value;
    PlaceOf(k, c);
    HeadTail(k.ready);
    assert multiset(k'.ready) + OnCpu(k'.curr) == multiset(k.ready);
    assert multiset(k.ready)[c] == multiset(k'.ready)[c] + OnCpu(k'.curr)[c];
    assert Everybody(k)[c] == multiset(k.free)[c] + multiset(k.ready)[c] + Blocked(k.asl)[c] + OnCpu(k.curr)[c];
  }

  // ---------------------------------------------------------------- the first process

  lemma {:induction false} RootAbove(k: Kernel, q: nat) returns (r: nat)
    requires Base(k) && Live(k.pcb, k.free, q)
    ensures Live(k.pcb, k.free, r) && k.pcb[r].pid == 1 && Desc(k.pcb, r, q)
    decreases k.pcb[q].pid
  {
    assert NodeOk(k.pcb, k.free, q);
    if k.pcb[q].parent.None? {
      r := q;
    } else {
      r := RootAbove(k, k.pcb[q].parent.value);
    }
  }

  /** Every live process descends from the one live process with pid 1; processCount is 0
      exactly when that one is gone. */
  lemma FirstProcess(k: Kernel)
    requires Base(k)
    ensures k.processCount == 0 <==> forall q: nat :: Live(k.pcb, k.free, q) ==> k.pcb[q].pid != 1
    ensures forall q: nat, r: nat :: Live(k.pcb, k.free, q) && Live(k.pcb, k.free, r) && k.pcb[r].pid == 1 ==>
              Desc(k.pcb, r, q)
  {
    forall q: nat, r: nat | Live(k.pcb, k.free, q) && Live(k.pcb, k.free, r) && k.pcb[r].pid == 1
      ensures Desc(k.pcb, r, q)
    {
      var r' := RootAbove(k, q);
      assert r' == r;
    }
    CountLive(k);
    if k.processCount != 0 {
      var q: nat :| Live(k.pcb, k.free, q);
      var r := RootAbove(k, q);
    }
  }

  /** processCount is 0 exactly when nobody is live. */
  lemma CountLive(k: Kernel)
    requires Base(k)
    ensures k.processCount >= 0
    ensures k.processCount == 0 <==> forall q: nat :: !Live(k.pcb, k.free, q)
  {
    BelowSize(|k.pcb|);
    PartitionNoDup(k);
    var s := Members(k.free);
    MembersSize(k.free);
    assert s <= Below(|k.pcb|);
    assert k.processCount == |Below(|k.pcb|) - s|;
    assert forall q: nat :: q in Below(|k.pcb|) - s <==> Live(k.pcb, k.free, q);
  }

  function Members(s: seq<nat>): set<nat> { if s == [] then {} else {s[0]} + Members(s[1..]) }

  lemma {:induction false} MembersSize(s: seq<nat>)
    requires NoDup(s)
    ensures |Members(s)| == |s| && forall q: nat :: q in Members(s) <==> q in s
  {
    if s != [] {
      MembersSize(s[1..]);
    }
  }
}
