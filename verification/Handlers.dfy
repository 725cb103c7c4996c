/** Every handler except termination keeps the invariant. */
module Handlers {
  import opened Queues
  import opened NucleusSpec
  import opened Invariant

  lemma ChargeBase(k: Kernel, t: int)
    requires Base(k) && k.curr.Some?
    ensures Base(Charge(k, t))
  {
    PcbFrame(k, Charge(k, t).pcb);
  }

  lemma ReplyBase(k: Kernel, p: nat, v: int)
    requires Base(k) && p < |k.pcb|
    ensures Base(Reply(k, p, v))
  {
    PcbFrame(k, Reply(k, p, v).pcb);
  }

  /** Writing a semaphore word keeps the law unless it makes an awaited one positive. */
  lemma SemWrite(k: Kernel, a: int, v: int)
    requires Base(k)
    requires a in Keys(k.asl) && !IsDevice(k.devs, a) ==> v <= 0
    ensures Base(k.(sem := k.sem[a := v]))
  {
    var k' := k.(sem := k.sem[a := v]);
    assert Everybody(k') == Everybody(k);
    assert forall x :: x != a ==> Val(k', x) == Val(k, x);
  }

  /** Blocking the running process keeps the invariant exactly for a non-NULL key that is a
      device semaphore or not positive. */
  lemma BlockBase(k: Kernel, key: int)
    requires Base(k) && k.curr.Some?
    ensures Base(Block(k, key)) <==> key != NULL && (IsDevice(k.devs, key) || Val(k, key) <= 0)
    ensures Block(k, key).curr.None? && Block(k, key).softBlock == k.softBlock
    ensures DevWaiters(k.devs, Block(k, key).asl) ==
            DevWaiters(k.devs, k.asl) + if IsDevice(k.devs, key) then multiset{k.curr.value} else multiset{}
    ensures ReadySorted(Block(k, key).pcb, Block(k, key).ready)
  {
    ForestFrame(k.pcb, Block(k, key).pcb, k.free, k.nextPid, k.ready);
    BlockingNeverFails(k, key);
    var p := k.curr.value;
    var k' := Block(k, key);
    EnqueueKeys(k.asl, key, p);
    EnqueueDev(k.devs, k.asl, key, p);
    if key == NULL {
      NullKey(k'.asl, k'.pcb);
    } else if IsDevice(k.devs, key) || Val(k, key) <= 0 {
      BlockKeeps(k, key);
    } else {
      assert Val(k', key) == Val(k, key);
    }
  }

  lemma BlockKeeps(k: Kernel, key: int)
    requires Base(k) && k.curr.Some? && key != NULL && (IsDevice(k.devs, key) || Val(k, key) <= 0)
    ensures Base(Block(k, key))
  {
    BlockingNeverFails(k, key);
    var k' := Block(k, key);
    EnqueueKeys(k.asl, key, k.curr.value);
    BlockParts(k, k', key);
    PartitionWf(k');
    assert SemLaw(k') by { assert forall a :: Val(k', a) == Val(k, a); }
  }

  lemma BlockParts(k: Kernel, k': Kernel, key: int)
    requires Base(k) && k.curr.Some? && key != NULL
    requires var p := k.curr.value;
             k' == k.(asl := Enqueue(k.asl, key, p), semdFree := k'.semdFree,
                      pcb := k.pcb[p := k.pcb[p].(semAdd := key)], curr := None)
    ensures Partition(k') && AslOk(k'.asl, k'.pcb)
    ensures Forest(k'.pcb, k'.free, k'.nextPid) && OneRoot(k'.pcb, k'.free) && ReadySorted(k'.pcb, k'.ready)
  {
    var p := k.curr.value;
    PlaceOf(k, p);
    BlockPartition(k, k', key);
    AslOkFrame(k.asl, k.pcb, k'.pcb);
    EnqueueOk(k.asl, key, p, k'.pcb);
    ForestFrame(k.pcb, k'.pcb, k.free, k.nextPid, k.ready);
  }

  lemma BlockPartition(k: Kernel, k': Kernel, key: int)
    requires Partition(k) && k.curr.Some? && |k'.pcb| == |k.pcb| && k'.free == k.free && k'.ready == k.ready
    requires k'.asl == Enqueue(k.asl, key, k.curr.value) && k'.curr.None?
    ensures Partition(k')
  {
    EnqueueBlocked(k.asl, key, k.curr.value);
    assert Everybody(k') == Everybody(k);
  }

  lemma {:induction false} NullKey(asl: seq<Semd>, pcb: seq<Pcb>)
    requires NULL in Keys(asl)
    ensures !AslOk(asl, pcb)
  {
    if asl[0].key != NULL {
      NullKey(asl[1..], pcb);
    }
  }

  /** The woken process moves from the head of the semaphore's queue to the ready queue. */
  lemma WakeBase(k: Kernel, key: int)
    requires Base(k) && Waiters(k.asl, key) != []
    ensures Waiters(k.asl, key)[0] < |k.pcb|
    ensures Base(Wake(k, key))
    ensures DevWaiters(k.devs, k.asl) == DevWaiters(k.devs, Wake(k, key).asl) +
            if IsDevice(k.devs, key) then multiset{Waiters(k.asl, key)[0]} else multiset{}
  {
    WaiterInRange(k, key);
    var k' := Wake(k, key);
    WakePartition(k, key);
    DequeueDev(k.devs, k.asl, key);
    DequeueKeys(k.asl, key, k.pcb);
    DequeueOk(k.asl, key, k.pcb);
    AslOkRange(k'.asl, k.pcb);
    InsertSorted(k.pcb, k.ready, Waiters(k.asl, key)[0]);
    assert forall a :: Val(k', a) == Val(k, a);
  }

  lemma WaiterInRange(k: Kernel, key: int)
    requires Partition(k) && Waiters(k.asl, key) != []
    ensures Waiters(k.asl, key)[0] < |k.pcb|
  {
    var h := Waiters(k.asl, key)[0];
    WaiterBlocked(k.asl, key);
    assert h in Waiters(k.asl, key);
    PlaceOf(k, h);
  }

  lemma WakePartition(k: Kernel, key: int)
    requires Wf(k) && Partition(k) && Waiters(k.asl, key) != [] && Waiters(k.asl, key)[0] < |k.pcb|
    ensures Partition(Wake(k, key))
  {
    DequeueBlocked(k.asl, key);
    assert Everybody(Wake(k, key)) == Everybody(k);
  }

  ghost predicate SameStore(k: Kernel, k': Kernel) {
    && k'.devs == k.devs && k'.pcb == k.pcb && k'.free == k.free && k'.nextPid == k.nextPid
    && k'.asl == k.asl && k'.semdFree == k.semdFree && k'.processCount == k.processCount
    && k'.sem == k.sem
  }

  /** Moving PCBs between the ready queue and currProc is all that can go wrong. */
  lemma Regroup(k: Kernel, k': Kernel)
    requires Base(k) && SameStore(k, k') && ReadySorted(k'.pcb, k'.ready)
    requires multiset(k'.ready) + OnCpu(k'.curr) == multiset(k.ready) + OnCpu(k.curr)
    ensures Base(k')
  {
    SameEverybody(k, k');
    PartitionWf(k');
    assert SemLaw(k') by { assert forall a :: Val(k', a) == Val(k, a); }
  }

  lemma SameEverybody(k: Kernel, k': Kernel)
    requires k'.free == k.free && k'.asl == k.asl && k'.pcb == k.pcb
    requires multiset(k'.ready) + OnCpu(k'.curr) == multiset(k.ready) + OnCpu(k.curr)
    ensures Partition(k) ==> Partition(k')
  {
    forall q: nat
      ensures Everybody(k')[q] == Everybody(k)[q]
    {
      assert (multiset(k'.ready) + OnCpu(k'.curr))[q] == (multiset(k.ready) + OnCpu(k.curr))[q];
    }
  }

  lemma RequeueBase(k: Kernel)
    requires Base(k) && k.curr.Some?
    ensures Base(MakeReady(k, k.curr.value).(curr := None))
  {
    var k' := MakeReady(k, k.curr.value).(curr := None);
    InsertSorted(k.pcb, k.ready, k.curr.value);
    Regroup(k, k');
  }

  lemma DispatchInv(k: Kernel, t: int)
    requires Base(k) && SoftOk(k) && k.curr.None?
    ensures Inv(Dispatch(k, t))
  {
    var k' := Dispatch(k, t);
    if k.ready != [] {
      HeadTail(k.ready);
      TailSorted(k.pcb, k.ready);
    }
    Regroup(k, k');
  }

  /** dispatch does not look at currProc when it finds a ready process. */
  lemma DispatchOverwrites(k: Kernel, t: int)
    requires k.ready != []
    ensures Dispatch(k, t) == Dispatch(k.(curr := None), t)
  {
  }

  lemma BlockInv(k: Kernel, key: int, soft: bool, t: int)
    requires Base(k) && SoftOk(k) && k.curr.Some?
    ensures var k1 := if soft then k.(softBlock := k.softBlock + 1) else k;
            Inv(Dispatch(Block(k1, key), t)) <==>
              && key != NULL && (IsDevice(k.devs, key) || Val(k, key) <= 0)
              && soft == IsDevice(k.devs, key)
  {
    var k1 := if soft then k.(softBlock := k.softBlock + 1) else k;
    Regroup(k, k1);
    BlockBase(k1, key);
    var k2 := Block(k1, key);
    assert Val(k1, key) == Val(k, key);
    assert |DevWaiters(k.devs, k2.asl)| ==
           |DevWaiters(k.devs, k.asl)| + if IsDevice(k.devs, key) then 1 else 0;
    if Base(k2) && SoftOk(k2) {
      DispatchInv(k2, t);
    } else {
      BadDispatch(k2, t);
    }
  }

  lemma BadDispatch(k: Kernel, t: int)
    requires k.curr.None? && ReadySorted(k.pcb, k.ready) && !(Base(k) && SoftOk(k))
    ensures !Inv(Dispatch(k, t))
  {
    if Base(Dispatch(k, t)) {
      UndoDispatch(k, t);
    }
  }

  /** dispatch only moves the head of the ready queue to an empty currProc. */
  lemma UndoDispatch(k: Kernel, t: int)
    requires k.curr.None? && ReadySorted(k.pcb, k.ready)
    requires Base(Dispatch(k, t))
    ensures Base(k)
  {
    var k' := Dispatch(k, t);
    if k.ready != [] {
      HeadTail(k.ready);
    }
    Regroup(k', k);
  }

  // ---------------------------------------------------------------- the handlers

  lemma PasserenInv(k: Kernel, a: int, t: int, t': int)
    requires Inv(k) && k.curr.Some?
    ensures Inv(Passeren(k, a, t, t')) <==> Val(k, a) > 0 || (a != NULL && !IsDevice(k.devs, a))
  {
    if Val(k, a) > 0 {
      SemWrite(k, a, Val(k, a) - 1);
    } else {
      ChargeBase(k, t);
      assert Val(Charge(k, t), a) == Val(k, a);
      BlockInv(Charge(k, t), a, false, t');
    }
  }

  lemma VerhogenInv(k: Kernel, a: int)
    requires Inv(k) && k.curr.Some?
    ensures Inv(Verhogen(k, a)) <==> Waiters(k.asl, a) == [] || !IsDevice(k.devs, a)
  {
    if Waiters(k.asl, a) == [] {
      ActiveKey(k.asl, k.pcb, a);
      SemWrite(k, a, Val(k, a) + 1);
    } else {
      WakeInv(k, a);
    }
  }

  /** A V that wakes does not touch the soft-block counter. */
  lemma WakeInv(k: Kernel, a: int)
    requires Base(k) && SoftOk(k) && ModeOk(k) && k.curr.Some? && Waiters(k.asl, a) != []
    ensures Waiters(k.asl, a)[0] < |k.pcb| && (Inv(Wake(k, a)) <==> !IsDevice(k.devs, a))
  {
    WakeBase(k, a);
  }

  lemma SoftWaitInv(k: Kernel, i: int, t: int, t': int)
    requires Inv(k) && k.curr.Some?
    ensures Inv(SoftWait(k, i, t, t')) <==> 0 <= i < NRSEMAPHORES
  {
    ChargeBase(k, t);
    var k1 := Charge(k, t);
    var key := DevAddr(k.devs, i);
    assert IsDevice(k.devs, key) <==> 0 <= i < NRSEMAPHORES;
    SoftBlockInv(k1, key, t');
    assert SoftWait(k, i, t, t') == Dispatch(Block(k1.(softBlock := k1.softBlock + 1), key), t');
  }

  lemma SoftBlockInv(k: Kernel, key: int, t: int)
    requires Base(k) && SoftOk(k) && k.curr.Some?
    ensures Inv(Dispatch(Block(k.(softBlock := k.softBlock + 1), key), t)) <==> IsDevice(k.devs, key)
  {
    BlockInv(k, key, true, t);
  }

  lemma YieldInv(k: Kernel, t: int, t': int)
    requires Inv(k) && k.curr.Some?
    ensures Inv(Yield(k, t, t'))
  {
    ChargeBase(k, t);
    var k1 := Charge(k, t);
    if k1.ready == [] {
      RequeueBase(k1);
      DispatchInv(MakeReady(k1, k1.curr.value).(curr := None), t');
    } else {
      YieldSwap(k1);
      YieldIsSwap(k, t, t');
      Regroup(Swapped(k1), Yield(k, t, t'));
    }
  }

  /** Popping the old head again leaves what requeueing behind it would. */
  function Swapped(k: Kernel): Kernel
    requires Wf(k) && k.curr.Some? && k.ready != []
  {
    HeadTail(k.ready);
    k.(ready := InsertProcQ(k.pcb, k.ready[1..], k.curr.value), curr := Some(k.ready[0]))
  }

  lemma YieldSwap(k: Kernel)
    requires Base(k) && k.curr.Some? && k.ready != []
    ensures Base(Swapped(k))
  {
    HeadTail(k.ready);
    TailSorted(k.pcb, k.ready);
    InsertSorted(k.pcb, k.ready[1..], k.curr.value);
    Regroup(k, Swapped(k));
  }

  lemma YieldIsSwap(k: Kernel, t: int, t': int)
    requires Wf(k) && k.curr.Some? && k.ready != []
    ensures Yield(k, t, t') == Swapped(Charge(k, t)).(todStart := t', mode := Running)
  {
    var queue := Swapped(Charge(k, t)).ready;
    assert ([k.ready[0]] + queue)[1..] == queue;
  }

  lemma LocalTimerInv(k: Kernel, t: int, t': int)
    requires Inv(k) && k.curr.Some?
    ensures Inv(LocalTimer(k, t, t'))
  {
    ChargeBase(k, t);
    RequeueDispatch(Charge(k, t), t');
  }

  lemma RequeueDispatch(k: Kernel, t: int)
    requires Base(k) && SoftOk(k) && k.curr.Some?
    ensures Inv(Dispatch(MakeReady(k, k.curr.value), t))
  {
    RequeueBase(k);
    var k2 := MakeReady(k, k.curr.value);
    DispatchInv(k2.(curr := None), t);
    DispatchOverwrites(k2, t);
  }

  lemma SignalBase(k: Kernel, i: int, status: int)
    requires Base(k) && SoftOk(k) && 0 <= i < NRSEMAPHORES
    ensures Base(Signal(k, i, status)) && SoftOk(Signal(k, i, status))
    ensures Signal(k, i, status).curr == k.curr && Signal(k, i, status).mode == k.mode
  {
    var a := DevAddr(k.devs, i);
    if Waiters(k.asl, a) == [] {
      ActiveKey(k.asl, k.pcb, a);
      SemWrite(k, a, Val(k, a) + 1);
    } else {
      SignalWakes(k, a, status);
    }
  }

  lemma SignalWakes(k: Kernel, a: int, status: int)
    requires Base(k) && SoftOk(k) && IsDevice(k.devs, a) && Waiters(k.asl, a) != []
    ensures Waiters(k.asl, a)[0] < |k.pcb|
    ensures var k' := Reply(Wake(k, a).(softBlock := k.softBlock - 1), Waiters(k.asl, a)[0], status);
            Base(k') && SoftOk(k')
  {
    SoftWakeBase(k, a);
    SoftReply(Wake(k, a).(softBlock := k.softBlock - 1), Waiters(k.asl, a)[0], status);
  }

  lemma SoftReply(k: Kernel, p: nat, v: int)
    requires Base(k) && SoftOk(k) && p < |k.pcb|
    ensures Base(Reply(k, p, v)) && SoftOk(Reply(k, p, v))
  {
    ReplyBase(k, p, v);
  }

  lemma SoftWakeBase(k: Kernel, a: int)
    requires Base(k) && SoftOk(k) && IsDevice(k.devs, a) && Waiters(k.asl, a) != []
    ensures Waiters(k.asl, a)[0] < |k.pcb|
    ensures Base(Wake(k, a).(softBlock := k.softBlock - 1))
    ensures SoftOk(Wake(k, a).(softBlock := k.softBlock - 1))
  {
    WakeBase(k, a);
    Regroup(Wake(k, a), Wake(k, a).(softBlock := k.softBlock - 1));
  }

  lemma ResumeInv(k: Kernel, t: int)
    requires Base(k) && SoftOk(k) && (k.curr.Some? ==> k.mode == Running)
    ensures Inv(Resume(k, t))
  {
    if k.curr.None? {
      DispatchInv(k, t);
    }
  }

  lemma DeviceInv(k: Kernel, line: int, pending: set<nat>, recv: int, transm: int, status: int, t: int)
    requires Inv(k) && 3 <= line <= 7
    ensures Inv(Device(k, line, pending, recv, transm, status, t))
  {
    match Interrupting(line, pending, recv, transm, status) {
      case None => ResumeInv(k, t);
      case Some((i, st)) =>
        SignalBase(k, i, st);
        ResumeInv(Signal(k, i, st), t);
    }
  }

  lemma {:induction false} DrainBase(k: Kernel)
    requires Base(k) && SoftOk(k)
    ensures Base(Drain(k)) && SoftOk(Drain(k))
    ensures Drain(k).curr == k.curr && Drain(k).devs == k.devs
    ensures Waiters(Drain(k).asl, DevAddr(k.devs, NSUPPSEM)) == []
    decreases |Blocked(k.asl)|
  {
    var a := DevAddr(k.devs, NSUPPSEM);
    if Waiters(k.asl, a) != [] {
      SoftWakeBase(k, a);
      DequeueBlocked(k.asl, a);
      DrainBase(Wake(k, a).(softBlock := k.softBlock - 1));
    }
  }

  /** Waking the waiters touches no PCB and not the running process. */
  lemma {:induction false} DrainFrame(k: Kernel)
    requires Base(k) && SoftOk(k)
    ensures Drain(k).pcb == k.pcb && Drain(k).todStart == k.todStart && Drain(k).curr == k.curr
    ensures Drain(k).free == k.free && Drain(k).nextPid == k.nextPid
    decreases |Blocked(k.asl)|
  {
    var s := DevAddr(k.devs, NSUPPSEM);
    if Waiters(k.asl, s) != [] {
      SoftWakeBase(k, s);
      DequeueBlocked(k.asl, s);
      DrainFrame(Wake(k, s).(softBlock := k.softBlock - 1));
    }
  }

  lemma TickInv(k: Kernel, t: int)
    requires Inv(k)
    ensures Inv(Tick(k, t))
  {
    DrainBase(k);
    var k1 := Drain(k);
    SemWrite(k1, DevAddr(k.devs, NSUPPSEM), 0);
    var k2 := k1.(sem := k1.sem[DevAddr(k.devs, NSUPPSEM) := 0]);
    if k2.curr.Some? {
      RequeueDispatch(k2, t);
    } else {
      DispatchInv(k2, t);
    }
  }

  // ---------------------------------------------------------------- creation

  lemma CreateInv(k: Kernel, prio: int, support: int)
    requires Inv(k) && k.curr.Some?
    ensures Inv(Create(k, prio, support))
  {
    var c := k.curr.value;
    if k.free == [] {
      ReplyBase(k, c, NOPROC);
    } else {
      CreateParts(k, prio, support);
      var k' := Create(k, prio, support);
      CreatePartition(k, prio, support);
      PartitionWf(k');
      assert k.free[0] in k.free;
      assert |k'.pcb| == |k.pcb| && |k'.free| == |k.free| - 1;
      assert SemLaw(k') by { assert forall a :: Val(k', a) == Val(k, a); }
    }
  }

  /** CREATEPROCESS answers NOPROC exactly when the pool is exhausted; otherwise it answers the pid
      of a process that was not live: unlike any live one's, ready, a child of the caller, with
      the priority and support structure asked for and a clean slate; nobody else changes. */
  lemma CreateResult(k: Kernel, prio: int, support: int)
    requires Inv(k) && k.curr.Some?
    ensures var c := k.curr.value; var k' := Create(k, prio, support);
            if k.free == [] then k' == Reply(k, c, NOPROC)
            else
              var p := k.free[0];
              && Live(k'.pcb, k'.free, p) && p in k'.ready && p in k'.pcb[c].child
              && k'.pcb[p] == Pcb(Some(c), [], NULL, prio, k'.pcb[c].a0, 0, 0, support)
              && (forall q: nat :: Live(k.pcb, k.free, q) ==> q != p && k.pcb[q].pid != k'.pcb[p].pid)
              && (forall q: nat :: q < |k.pcb| && q != p && q != c ==> k'.pcb[q] == k.pcb[q])
              && k'.processCount == k.processCount + 1 && k'.asl == k.asl && k'.curr == k.curr
  {
    if k.free != [] {
      assert k.free[0] in k.free;
      PlaceOf(k, k.free[0]);
      PartitionNoDup(k);
      CreatedPcb(k, prio, support);
      assert forall q: nat :: Live(k.pcb, k.free, q) ==> k.pcb[q].pid < k.nextPid;
    }
  }

  lemma CreatedPcb(k: Kernel, prio: int, support: int)
    requires Wf(k) && k.curr.Some? && k.free != [] && NoDup(k.free) && k.curr.value != k.free[0] < |k.pcb|
    ensures var c := k.curr.value; var k' := Create(k, prio, support); var p := k.free[0];
            && Live(k'.pcb, k'.free, p) && p in k'.ready && p in k'.pcb[c].child && k'.pcb[p].pid == k.nextPid
            && k'.pcb[p] == Pcb(Some(c), [], NULL, prio, k'.pcb[c].a0, 0, 0, support)
            && (forall q: nat :: q < |k.pcb| && q != p && q != c ==> k'.pcb[q] == k.pcb[q])
  {
    var p := k.free[0];
    var k' := Create(k, prio, support);
    assert k.free == [p] + k.free[1..] && p !in k.free[1..];
    assert p in multiset(k'.ready);
    assert ([p] + k.pcb[k.curr.value].child)[0] == p;
  }

  lemma CreatePartition(k: Kernel, prio: int, support: int)
    requires Wf(k) && Partition(k) && k.curr.Some? && k.free != []
    ensures Partition(Create(k, prio, support))
  {
    HeadTail(k.free);
    assert k.free[0] in k.free;
    var k' := Create(k, prio, support);
    assert |k'.pcb| == |k.pcb| && k'.asl == k.asl && k'.curr == k.curr && k'.free == k.free[1..];
    assert multiset(k'.ready) == multiset(k.ready) + multiset{k.free[0]};
    assert Everybody(k') == Everybody(k);
  }

  lemma CreateParts(k: Kernel, prio: int, support: int)
    requires Inv(k) && k.curr.Some? && k.free != []
    ensures var k' := Create(k, prio, support);
            && AslOk(k'.asl, k'.pcb)
            && Forest(k'.pcb, k'.free, k'.nextPid) && OneRoot(k'.pcb, k'.free)
            && ReadySorted(k'.pcb, k'.ready)
  {
    var k' := Create(k, prio, support);
    assert k.free[0] in k.free;
    PlaceOf(k, k.free[0]);
    PlaceOf(k, k.curr.value);
    PartitionNoDup(k);
    AslOkFrame(k.asl, k.pcb, k'.pcb);
    CreateTree(k, prio, support);
    CreateReady(k, prio, support);
  }

  lemma CreateTree(k: Kernel, prio: int, support: int)
    requires Wf(k) && Forest(k.pcb, k.free, k.nextPid) && OneRoot(k.pcb, k.free) && k.nextPid > 0
    requires k.curr.Some? && Live(k.pcb, k.free, k.curr.value) && k.free != [] && NoDup(k.free)
    ensures var k' := Create(k, prio, support);
            Forest(k'.pcb, k'.free, k'.nextPid) && OneRoot(k'.pcb, k'.free)
  {
    assert k.free[0] in k.free;
    CreateForest(k.pcb, k.free, k.nextPid, Create(k, prio, support).pcb, k.curr.value);
  }

  lemma CreateReady(k: Kernel, prio: int, support: int)
    requires Wf(k) && k.curr.Some? && k.free != [] && k.free[0] !in k.ready && ReadySorted(k.pcb, k.ready)
    requires k.curr.value != k.free[0]
    ensures ReadySorted(Create(k, prio, support).pcb, Create(k, prio, support).ready)
  {
    var p := k.free[0];
    assert p in k.free;
    var k' := Create(k, prio, support);
    var pcb := k.pcb[p := k'.pcb[p]];
    PriosFrame(k.pcb, pcb, k.ready);
    InsertSorted(pcb, k.ready, p);
    PriosFrame(pcb, k'.pcb, k'.ready);
  }

  lemma PriosFrame(pcb: seq<Pcb>, pcb': seq<Pcb>, ready: seq<nat>)
    requires |pcb| == |pcb'| && InRange(ready, |pcb|)
    requires forall q :: q in ready ==> pcb'[q].prio == pcb[q].prio
    ensures Prios(pcb', ready) == Prios(pcb, ready)
  {
    assert forall i :: 0 <= i < |ready| ==> ready[i] in ready;
  }

  lemma CreateForest(pcb: seq<Pcb>, free: seq<nat>, nextPid: nat, pcb': seq<Pcb>, c: nat)
    requires free != [] && Forest(pcb, free, nextPid) && OneRoot(pcb, free)
    requires NoDup(free) && Live(pcb, free, c) && free[0] < |pcb| && nextPid > 0
    requires |pcb'| == |pcb|
    requires pcb'[free[0]].parent == Some(c) && pcb'[free[0]].child == [] && pcb'[free[0]].pid == nextPid
    requires pcb'[c].parent == pcb[c].parent && pcb'[c].pid == pcb[c].pid
    requires pcb'[c].child == [free[0]] + pcb[c].child
    requires forall q :: 0 <= q < |pcb| && q != free[0] && q != c ==> pcb'[q] == pcb[q]
    ensures Forest(pcb', free[1..], nextPid + 1) && OneRoot(pcb', free[1..])
  {
    var p := free[0];
    var free' := free[1..];
    assert p in free;
    TakenLive(pcb, free, pcb');
    forall q: nat | Live(pcb', free', q)
      ensures NodeOk(pcb', free', q) && pcb'[q].pid < nextPid + 1
    {
      if q != p {
        assert NodeOk(pcb, free, q);
        CreateNode(pcb, free, pcb', c, q);
      }
    }
    assert forall q: nat :: Live(pcb, free, q) ==> pcb'[q].pid == pcb[q].pid < nextPid;
    TakenWf(pcb, free[0], pcb', c);
  }

  lemma TakenLive(pcb: seq<Pcb>, free: seq<nat>, pcb': seq<Pcb>)
    requires free != [] && NoDup(free) && free[0] < |pcb| == |pcb'|
    ensures forall q: nat :: Live(pcb', free[1..], q) <==> Live(pcb, free, q) || q == free[0]
  {
    assert free == [free[0]] + free[1..];
    assert free[0] !in free[1..];
  }

  lemma TakenWf(pcb: seq<Pcb>, p: nat, pcb': seq<Pcb>, c: nat)
    requires TreeWf(pcb) && p < |pcb| == |pcb'| && c < |pcb|
    requires pcb'[p].parent == Some(c) && pcb'[p].child == []
    requires pcb'[c].parent == pcb[c].parent && pcb'[c].child == [p] + pcb[c].child
    requires forall q :: 0 <= q < |pcb| && q != p && q != c ==> pcb'[q] == pcb[q]
    ensures TreeWf(pcb')
  {
    forall q | 0 <= q < |pcb'|
      ensures InRange(pcb'[q].child, |pcb'|) && (pcb'[q].parent.Some? ==> pcb'[q].parent.value < |pcb'|)
    {
      assert InRange(pcb[q].child, |pcb|);
    }
  }

  lemma CreateNode(pcb: seq<Pcb>, free: seq<nat>, pcb': seq<Pcb>, c: nat, q: nat)
    requires free != [] && NoDup(free) && Live(pcb, free, c) && free[0] < |pcb| && |pcb'| == |pcb|
    requires pcb'[free[0]].parent == Some(c)
    requires pcb'[c].parent == pcb[c].parent && pcb'[c].pid == pcb[c].pid
    requires pcb'[c].child == [free[0]] + pcb[c].child
    requires forall q :: 0 <= q < |pcb| && q != free[0] && q != c ==> pcb'[q] == pcb[q]
    requires Live(pcb, free, q) && NodeOk(pcb, free, q)
    ensures NodeOk(pcb', free[1..], q)
  {
    var p := free[0];
    assert free == [p] + free[1..];
    assert p in free && p !in free[1..];
    assert p !in pcb[q].child;
    assert forall x: nat :: Live(pcb, free, x) ==> Live(pcb', free[1..], x);
    assert forall x :: x in pcb'[q].child ==> x in pcb[q].child || (q == c && x == p);
    assert NoDup(pcb'[q].child);
  }
}
