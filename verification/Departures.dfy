/** Runs in which the code departs from its stated intent. */
module Departures {
  import opened Queues
  import opened NucleusSpec
  import opened Invariant
  import opened Handlers
  import opened Subtree
  import opened Termination
  import opened Runs
  import opened Semaphores
  import opened Devices

  const DEVS := 1000
  const SEM := 4

  function First(child: seq<nat>, time: int, a0: int): Pcb { Pcb(None, child, NULL, 0, 1, time, a0, NULL) }

  function Second(semAdd: int, time: int): Pcb { Pcb(Some(1), [], semAdd, 0, 2, time, 0, NULL) }

  /** The first process (slot 1) has a child (slot 0). */
  function Pair(ready: seq<nat>, asl: seq<Semd>, curr: nat, semAdd: int): Kernel
    requires |asl| <= 2
  {
    Kernel(DEVS, [Second(semAdd, 0), First([0], 0, 2)], [], 3, ready, asl, 2 - |asl|, Some(curr), 2, 0,
           map[], 0, 0, Running)
  }

  /** The state boot leaves, with a pool of two PCBs. */
  function Fresh(): Kernel {
    Kernel(DEVS, [BLANK_PCB, First([], 0, 0)], [0], 2, [], [], 2, Some(1), 1, 0, map[], 0, 0, Running)
  }

  function At(e: Event): Moment { Moment(e, 0, 0) }

  lemma Booted()
    ensures Boot(DEVS, 2, map[], 0) == Fresh()
  {
    assert Down(1) == [0];
    assert seq(2, _ => BLANK_PCB)[1 := BLANK_PCB.(pid := 1)] == [BLANK_PCB, First([], 0, 0)];
  }

  lemma Created()
    ensures var k := Boot(DEVS, 2, map[], 0);
            Inv(k) && Enabled(k, At(NSys1(0, NULL))) && Step(k, At(NSys1(0, NULL))) == Pair([0], [], 1, NULL)
  {
    BootInv(DEVS, 2, map[], 0);
    Booted();
    var k := Boot(DEVS, 2, map[], 0);
    var k' := Create(k, 0, NULL);
    assert [0] + First([], 0, 0).child == [0];
    assert k'.pcb == [Second(NULL, 0), First([0], 0, 2)];
    assert k'.ready == [0];
  }

  lemma Yielded()
    requires Wf(Pair([0], [], 1, NULL))
    ensures Yield(Pair([0], [], 1, NULL), 0, 0) == Pair([1], [], 0, NULL)
  {
    var k := Pair([0], [], 1, NULL);
    var k1 := Charge(k, 0);
    assert k1.pcb == k.pcb;
    assert k.ready[1..] == [];
    assert InsertProcQ(k.pcb, [], 1) == [1];
    assert ([0] + [1])[1..] == [1];
  }

  lemma Waited()
    requires Wf(Pair([1], [], 0, NULL))
    ensures Passeren(Pair([1], [], 0, NULL), SEM, 0, 0) == Pair([], [Semd(SEM, [0])], 1, SEM)
  {
    var k := Pair([1], [], 0, NULL);
    var k1 := Charge(k, 0);
    assert k1.pcb == k.pcb;
    assert Enqueue([], SEM, 0) == [Semd(SEM, [0])];
    assert Block(k1, SEM).pcb == [Second(SEM, 0), First([0], 0, 2)];
    assert [1][1..] == [];
  }

  lemma Woke()
    requires Wf(Pair([], [Semd(SEM, [0])], 1, SEM))
    ensures Verhogen(Pair([], [Semd(SEM, [0])], 1, SEM), SEM) == Pair([0], [], 1, SEM)
  {
    var k := Pair([], [Semd(SEM, [0])], 1, SEM);
    assert Waiters(k.asl, SEM) == [0];
    assert Dequeue(k.asl, SEM) == [] + k.asl[1..] == [];
    assert InsertProcQ(k.pcb, [], 0) == [0];
  }

  const CREATE := At(NSys1(0, NULL))

  /** A parent creates a child, yields to it; the child waits on a semaphore, the parent signals
      it, and then terminates. */
  function StaleRun(): seq<Moment> {
    [CREATE] + ([At(NSys10)] + ([At(NSys3(SEM))] + [At(NSys4(SEM))]))
  }

  /** The guarded run `ms` leads from `k` to `r`. */
  ghost predicate Leads(k: Kernel, ms: seq<Moment>, r: Kernel) { Inv(k) && Guarded(k, ms) && Run(k, ms) == r }

  ghost predicate Takes(k: Kernel, m: Moment, k': Kernel) {
    Inv(k) && Enabled(k, m) && Guard(k, m.e) && Step(k, m) == k' && Inv(k')
  }

  lemma Lead(k: Kernel, m: Moment, k': Kernel, ms: seq<Moment>, r: Kernel)
    requires Takes(k, m, k') && Leads(k', ms, r)
    ensures Leads(k, [m] + ms, r)
  {
    RunCons(k, m, ms);
  }

  lemma LeadLast(k: Kernel, m: Moment, k': Kernel)
    requires Takes(k, m, k')
    ensures Leads(k, [m], k')
  {
    Lead(k, m, k', [], k');
    assert [m] + [] == [m];
  }

  lemma CreateTakes()
    ensures Takes(Boot(DEVS, 2, map[], 0), CREATE, Pair([0], [], 1, NULL))
  {
    Created();
    StepInv(Boot(DEVS, 2, map[], 0), CREATE);
  }

  lemma YieldTakes()
    requires Inv(Pair([0], [], 1, NULL))
    ensures Takes(Pair([0], [], 1, NULL), At(NSys10), Pair([1], [], 0, NULL))
  {
    Yielded();
    YieldStep(Pair([0], [], 1, NULL));
    StepInv(Pair([0], [], 1, NULL), At(NSys10));
  }

  lemma YieldStep(k: Kernel)
    requires Wf(k) && k.mode == Running && k.curr.Some? && k.clock == 0
    ensures Step(k, At(NSys10)) == Yield(k, 0, 0).(clock := 0)
  {
  }

  lemma WaitTakes()
    requires Inv(Pair([1], [], 0, NULL))
    ensures Takes(Pair([1], [], 0, NULL), At(NSys3(SEM)), Pair([], [Semd(SEM, [0])], 1, SEM))
  {
    Waited();
    StepInv(Pair([1], [], 0, NULL), At(NSys3(SEM)));
  }

  lemma WakeTakes()
    requires Inv(Pair([], [Semd(SEM, [0])], 1, SEM))
    ensures Takes(Pair([], [Semd(SEM, [0])], 1, SEM), At(NSys4(SEM)), Pair([0], [], 1, SEM))
  {
    Woke();
    StepInv(Pair([], [Semd(SEM, [0])], 1, SEM), At(NSys4(SEM)));
  }

  lemma StaleRunReaches()
    ensures Leads(Boot(DEVS, 2, map[], 0), StaleRun(), Pair([0], [], 1, SEM)) && Inv(Pair([0], [], 1, SEM))
  {
    var k1, k2, k3, r := Pair([0], [], 1, NULL), Pair([1], [], 0, NULL), Pair([], [Semd(SEM, [0])], 1, SEM), Pair([0], [], 1, SEM);
    CreateTakes();
    YieldTakes();
    WaitTakes();
    WakeTakes();
    LeadLast(k3, At(NSys4(SEM)), r);
    Lead(k2, At(NSys3(SEM)), k3, [At(NSys4(SEM))], r);
    Lead(k1, At(NSys10), k2, [At(NSys3(SEM))] + [At(NSys4(SEM))], r);
    Lead(Boot(DEVS, 2, map[], 0), CREATE, k1, [At(NSys10)] + ([At(NSys3(SEM))] + [At(NSys4(SEM))]), r);
  }

  /** The state `r`, reached from boot by the guarded run `ms`, admits `m`, which breaks the
      invariant. */
  ghost predicate Breaks(ms: seq<Moment>, r: Kernel, m: Moment) {
    Leads(Boot(DEVS, 2, map[], 0), ms, r) && Inv(r) && Enabled(r, m) && !Guard(r, m.e) && !Inv(Step(r, m))
  }

  /** Because removeBlocked leaves p_semAdd set, a run of nothing but legal calls reaches a state
      where the first process's own termination breaks the invariant: its child is ready and stale.
      What the lists look like then is StaleTermination in Rings. */
  lemma StaleTerminationBreaks()
    ensures var k := Pair([0], [], 1, SEM);
            && Breaks(StaleRun(), k, At(NSys2(0)))
            && k.ready == [0] && k.pcb[0].semAdd == SEM && k.curr == Some(1)
  {
    StaleRunReaches();
    StaleBreaks(SEM);
  }

  // ---------------------------------------------------------------- woken by a device

  /** The child waits for disk 0. */
  function Awaiting(): Kernel { Pair([], [Semd(DEVS, [0])], 1, DEVS).(softBlock := 1) }

  lemma AwaitTakes()
    requires Inv(Pair([1], [], 0, NULL))
    ensures Takes(Pair([1], [], 0, NULL), At(NSys5(DISK0)), Awaiting())
  {
    var k := Pair([1], [], 0, NULL);
    IndexInverse(3, 0, false);
    Awaited(k);
    StepInv(k, At(NSys5(DISK0)));
  }

  lemma Awaited(k: Kernel)
    requires k == Pair([1], [], 0, NULL) && Wf(k)
    ensures SoftWait(k, 0, 0, 0) == Awaiting()
  {
    var k1 := Charge(k, 0);
    assert k1.pcb == k.pcb;
    var k2 := k1.(softBlock := k1.softBlock + 1);
    assert Enqueue([], DEVS, 0) == [Semd(DEVS, [0])];
    assert Block(k2, DEVS).pcb == [Second(DEVS, 0), First([0], 0, 2)];
    assert [1][1..] == [];
  }

  lemma AnswerTakes()
    requires Inv(Awaiting())
    ensures Takes(Awaiting(), DISK0_DONE, Pair([0], [], 1, DEVS))
  {
    assert FirstPending({0}) == Some(0);
    Answered(Awaiting());
    StepInv(Awaiting(), DISK0_DONE);
  }

  lemma Answered(k: Kernel)
    requires k == Awaiting() && Wf(k)
    ensures Signal(k, 0, 0) == Pair([0], [], 1, DEVS)
  {
    assert Waiters(k.asl, DEVS) == [0];
    assert Dequeue(k.asl, DEVS) == [] + k.asl[1..] == [];
    assert InsertProcQ(k.pcb, [], 0) == [0];
    assert k.pcb[0 := k.pcb[0].(a0 := 0)] == k.pcb;
  }

  function DeviceRun(): seq<Moment> { [CREATE] + ([At(NSys10)] + ([At(NSys5(DISK0))] + [DISK0_DONE])) }

  lemma DeviceRunReaches()
    ensures Leads(Boot(DEVS, 2, map[], 0), DeviceRun(), Pair([0], [], 1, DEVS)) && Inv(Pair([0], [], 1, DEVS))
  {
    var k1, k2, k3, r := Pair([0], [], 1, NULL), Pair([1], [], 0, NULL), Awaiting(), Pair([0], [], 1, DEVS);
    CreateTakes();
    YieldTakes();
    AwaitTakes();
    AnswerTakes();
    LeadLast(k3, DISK0_DONE, r);
    Lead(k2, At(NSys5(DISK0)), k3, [DISK0_DONE], r);
    Lead(k1, At(NSys10), k2, [At(NSys5(DISK0))] + [DISK0_DONE], r);
    Lead(Boot(DEVS, 2, map[], 0), CREATE, k1, [At(NSys10)] + ([At(NSys5(DISK0))] + [DISK0_DONE]), r);
  }

  /** A device wakes with removeBlocked too: the child whose DOIO is answered is ready with the device's
      semaphore still in p_semAdd, and its parent's termination breaks the invariant. */
  lemma DeviceLeavesStale()
    ensures var k := Pair([0], [], 1, DEVS);
            && Breaks(DeviceRun(), k, At(NSys2(0)))
            && k.ready == [0] && k.pcb[0].semAdd == DEVS && k.curr == Some(1)
  {
    DeviceRunReaches();
    StaleBreaks(DEVS);
  }

  /** The first process's own termination, with its child ready and stale. */
  lemma StaleBreaks(a: int)
    requires Inv(Pair([0], [], 1, a)) && a != NULL
    ensures var k := Pair([0], [], 1, a);
            Enabled(k, At(NSys2(0))) && !Guard(k, NSys2(0)) && !Inv(Step(k, At(NSys2(0))))
  {
    var k := Pair([0], [], 1, a);
    assert Desc(k.pcb, 1, 1);
    assert Desc(k.pcb, 1, 0);
    assert 0 in Descendants(k.pcb, k.free, 1);
    StepInv(k, At(NSys2(0)));
  }

  // ---------------------------------------------------------------- a caller that survives

  lemma CreatedRun()
    ensures Leads(Boot(DEVS, 2, map[], 0), [CREATE], Pair([0], [], 1, NULL)) && Inv(Pair([0], [], 1, NULL))
  {
    CreateTakes();
    LeadLast(Boot(DEVS, 2, map[], 0), CREATE, Pair([0], [], 1, NULL));
  }

  lemma ChildAlone(k: Kernel)
    requires k == Pair([0], [], 1, NULL) && Inv(k)
    ensures Descendants(k.pcb, k.free, 0) == {0}
    ensures FindByPid(k, 2) == Some(0)
  {
    LeafDescendants(k.pcb, k.free, k.nextPid, 0);
  }

  /** A process that terminates its only child panics the system: nsys2 dispatches although its
      caller could go on, and finds nobody ready. */
  lemma SparedCallerPanics()
    ensures var k := Pair([0], [], 1, NULL);
            && Breaks([CREATE], k, At(NSys2(2)))
            && Step(k, At(NSys2(2))).mode == Panicked && Step(k, At(NSys2(2))).curr == Some(1)
  {
    CreatedRun();
    var k := Pair([0], [], 1, NULL);
    ChildAlone(k);
    StepInv(k, At(NSys2(2)));
    SubtreeTermination(k, 0);
    assert Without([0], {0}) == [];
    assert AwaitingDevice(k, {0}) == {};
  }

  // ---------------------------------------------------------------- device semaphores

  lemma FreshRun()
    ensures Boot(DEVS, 2, map[], 0) == Fresh() && Inv(Fresh()) && Leads(Fresh(), [], Fresh())
  {
    Booted();
    BootInv(DEVS, 2, map[], 0);
  }

  /** A P by the first process on a device semaphore that nobody awaits panics the system, although
      the only live process waits on a device semaphore. */
  lemma PassDevicePanics()
    ensures Breaks([], Fresh(), At(NSys3(DEVS)))
    ensures var k' := Step(Fresh(), At(NSys3(DEVS)));
            k'.mode == Panicked && Waiters(k'.asl, DEVS) == [1]
  {
    FreshRun();
    StepInv(Fresh(), At(NSys3(DEVS)));
    JoinsEmpty(Fresh(), At(NSys3(DEVS)), DEVS);
  }

  lemma BlockedKey(k: Kernel, a: int)
    requires Base(k) && k.curr.Some? && Val(k, a) <= 0
    ensures Passeren(k, a, 0, 0).pcb[k.curr.value].semAdd == a
  {
    ChargeBase(k, 0);
    BlockingNeverFails(Charge(k, 0), a);
  }

  /** A P at address 0 leaves a descriptor whose waiter looks ready to terminateProcess. */
  lemma PassNullBreaks()
    ensures Breaks([], Fresh(), At(NSys3(NULL)))
    ensures var k' := Step(Fresh(), At(NSys3(NULL)));
            Waiters(k'.asl, NULL) == [1] && k'.pcb[1].semAdd == NULL
  {
    FreshRun();
    StepInv(Fresh(), At(NSys3(NULL)));
    JoinsEmpty(Fresh(), At(NSys3(NULL)), NULL);
    BlockedKey(Fresh(), NULL);
  }

  /** The register after the last whose index is inside the array. */
  const OUTSIDE := START_DEVREG + NRSEMAPHORES * DEVREGSIZE

  /** A DOIO there makes the processor wait for a device for ever: softBlock_count is 1 and nobody is
      queued on a device semaphore. */
  lemma DoioOutsideWaits()
    ensures Breaks([], Fresh(), At(NSys5(OUTSIDE)))
    ensures var k' := Step(Fresh(), At(NSys5(OUTSIDE)));
            k'.mode == Waiting && k'.softBlock == 1 && DevWaiters(DEVS, k'.asl) == multiset{}
  {
    FreshRun();
    StepInv(Fresh(), At(NSys5(OUTSIDE)));
    assert SemIndex(OUTSIDE) == NRSEMAPHORES;
    EnqueueDev(DEVS, [], DEVS + WORDLEN * NRSEMAPHORES, 1);
  }

  const DISK0 := CommandReg(3, 0, false)

  /** Somebody ready runs once the caller waits for the device. */
  lemma ChildRuns(k: Kernel, i: int)
    requires Wf(k) && k.curr.Some? && k.ready != []
    ensures SoftWait(k, i, 0, 0).mode == Running && SoftWait(k, i, 0, 0).devs == k.devs
  {
  }

  lemma ParentMay(k: Kernel)
    requires k == Pair([0], [], 1, NULL) && Inv(k)
    ensures Enabled(k, At(NSys5(DISK0))) && Guard(k, NSys5(DISK0)) && SemIndex(DISK0) == 0
  {
    IndexInverse(3, 0, false);
  }

  lemma DoioRuns(k: Kernel, a1: int)
    requires Inv(k) && Enabled(k, At(NSys5(a1))) && k.ready != []
    ensures Step(k, At(NSys5(a1))).mode == Running && Step(k, At(NSys5(a1))).clock == 0
  {
    ChildRuns(k, SemIndex(a1));
  }

  lemma ParentWaits(k: Kernel)
    requires k == Pair([0], [], 1, NULL) && Inv(k)
    ensures Enabled(k, At(NSys5(DISK0))) && Guard(k, NSys5(DISK0))
    ensures var k' := Step(k, At(NSys5(DISK0)));
            Inv(k') && k'.mode == Running && k'.clock == 0 && k'.devs == DEVS && Waiters(k'.asl, DEVS) == [1]
  {
    ParentMay(k);
    DoioRuns(k, DISK0);
    StepInv(k, At(NSys5(DISK0)));
    JoinsEmpty(k, At(NSys5(DISK0)), DEVS);
  }

  lemma JoinsEmpty(k: Kernel, m: Moment, a: int)
    requires Inv(k) && Enabled(k, m) && Joins(k, m.e, a) && k.curr.Some? && Waiters(k.asl, a) == []
    ensures Waiters(Step(k, m).asl, a) == [k.curr.value] && Val(Step(k, m), a) == Val(k, a)
  {
    QueueStep(k, m, a);
  }

  function AwaitedRun(): seq<Moment> { [CREATE] + [At(NSys5(DISK0))] }

  /** A V by a child on the device semaphore its parent waits on. */
  lemma SignalDeviceBreaks() returns (r: Kernel)
    ensures Breaks(AwaitedRun(), r, At(NSys4(DEVS)))
    ensures Waiters(r.asl, DEVS) == [1] && r.curr != Some(1)
  {
    r := AwaitedReached();
    StepInv(r, At(NSys4(DEVS)));
    WaiterBlocked(r.asl, DEVS);
    PlaceOf(r, 1);
  }

  lemma AwaitedReached() returns (r: Kernel)
    ensures Leads(Boot(DEVS, 2, map[], 0), AwaitedRun(), r)
    ensures Inv(r) && r.mode == Running && r.clock == 0 && r.devs == DEVS && Waiters(r.asl, DEVS) == [1]
  {
    CreateTakes();
    var k := Pair([0], [], 1, NULL);
    ParentWaits(k);
    r := Step(k, At(NSys5(DISK0)));
    LeadLast(k, At(NSys5(DISK0)), r);
    Lead(Boot(DEVS, 2, map[], 0), CREATE, k, [At(NSys5(DISK0))], r);
  }

  // ---------------------------------------------------------------- a waiter at a positive value

  const DISK0_DONE := At(Dev(3, {0}, 0, 0, 0))

  lemma Unawaited()
    requires Inv(Fresh())
    ensures Enabled(Fresh(), DISK0_DONE)
    ensures var k' := Step(Fresh(), DISK0_DONE);
            && Inv(k') && k'.curr == Some(1) && k'.mode == Running && k'.clock == 0 && k'.devs == DEVS
            && Val(k', DEVS) == 1 && Waiters(k'.asl, DEVS) == []
  {
    StepInv(Fresh(), DISK0_DONE);
    QueueStep(Fresh(), DISK0_DONE, DEVS);
    assert FirstPending({0}) == Some(0);
  }

  lemma PositiveJoin(k: Kernel)
    requires Inv(k) && k.curr == Some(1) && k.mode == Running && k.clock == 0 && k.devs == DEVS
    requires Val(k, DEVS) == 1 && Waiters(k.asl, DEVS) == []
    ensures var k' := Step(k, At(NSys5(DISK0)));
            Takes(k, At(NSys5(DISK0)), k') && Val(k', DEVS) == 1 && Waiters(k'.asl, DEVS) == [1]
  {
    IndexInverse(3, 0, false);
    StepInv(k, At(NSys5(DISK0)));
    JoinsEmpty(k, At(NSys5(DISK0)), DEVS);
  }

  /** An interrupt nobody awaits and then a DOIO on the same device, both within their guards: the
      process waits on a semaphore whose value is 1. */
  lemma WaiterAtPositive() returns (r: Kernel)
    ensures Leads(Boot(DEVS, 2, map[], 0), [DISK0_DONE] + [At(NSys5(DISK0))], r)
    ensures Val(r, DEVS) == 1 && Waiters(r.asl, DEVS) == [1]
  {
    var k := InterruptedReached();
    PositiveJoin(k);
    r := Step(k, At(NSys5(DISK0)));
    LeadLast(k, At(NSys5(DISK0)), r);
    Lead(Boot(DEVS, 2, map[], 0), DISK0_DONE, k, [At(NSys5(DISK0))], r);
  }

  lemma InterruptedReached() returns (k: Kernel)
    ensures Takes(Boot(DEVS, 2, map[], 0), DISK0_DONE, k)
    ensures Inv(k) && k.curr == Some(1) && k.mode == Running && k.clock == 0 && k.devs == DEVS
    ensures Val(k, DEVS) == 1 && Waiters(k.asl, DEVS) == []
  {
    FreshRun();
    Unawaited();
    k := Step(Fresh(), DISK0_DONE);
  }
}
