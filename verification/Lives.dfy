/** Processes from their creation to their end, over whole runs: a process is the one its pid names,
    and keeps what CREATEPROCESS gave it. */
module Lives {
  import opened Queues
  import opened NucleusSpec
  import opened Invariant
  import opened Handlers
  import opened Subtree
  import opened Termination
  import opened Runs
  import opened Semaphores
  import opened Records

  // ---------------------------------------------------------------- the pool

  /** The event takes a PCB from the pool. */
  predicate Creates(k: Kernel, e: Event) { e.NSys1? && k.free != [] }

  /** `f` is `free` with something put in front, `p` foremost. */
  predicate OnTop(f: seq<nat>, p: nat, free: seq<nat>) {
    |f| > |free| && f[0] == p && f[|f| - |free|..] == free
  }

  ghost predicate SamePool(k: Kernel, k': Kernel) { k'.free == k.free && k'.nextPid == k.nextPid }

  lemma WaitPool(k: Kernel, m: Moment)
    requires Wf(k) && k.curr.Some? && (m.e.NSys3? || m.e.NSys5? || m.e.NSys7? || m.e.NSys10?)
    ensures SamePool(k, HandleWait(k, m))
  {
    if m.e.NSys3? {
      PassPool(k, m.e.a, m.t, m.t');
    } else if m.e.NSys10? {
      YieldPool(k, m.t, m.t');
    } else {
      SoftPool(k, if m.e.NSys5? then SemIndex(m.e.a1) else NSUPPSEM, m.t, m.t');
    }
  }

  lemma PassPool(k: Kernel, a: int, t: int, t': int)
    requires Wf(k) && k.curr.Some?
    ensures SamePool(k, Passeren(k, a, t, t'))
  {
  }

  lemma YieldPool(k: Kernel, t: int, t': int)
    requires Wf(k) && k.curr.Some?
    ensures SamePool(k, Yield(k, t, t')) && SamePool(k, LocalTimer(k, t, t'))
  {
  }

  lemma SoftPool(k: Kernel, i: int, t: int, t': int)
    requires Wf(k) && k.curr.Some?
    ensures SamePool(k, SoftWait(k, i, t, t'))
  {
  }

  lemma ReadPool(k: Kernel, m: Moment)
    requires Wf(k) && k.curr.Some? && (m.e.NSys6? || m.e.NSys8? || m.e.NSys9?)
    ensures SamePool(k, HandleRead(k, m))
  {
  }

  lemma SignalPool(k: Kernel, i: int, status: int)
    requires Wf(k)
    ensures SamePool(k, Signal(k, i, status))
  {
  }

  lemma DevicePool(k: Kernel, m: Moment)
    requires Wf(k) && m.e.Dev?
    ensures SamePool(k, Device(k, m.e.line, m.e.pending, m.e.recv, m.e.transm, m.e.status, m.t'))
  {
    var s := Interrupting(m.e.line, m.e.pending, m.e.recv, m.e.transm, m.e.status);
    if s.Some? {
      SignalPool(k, s.value.0, s.value.1);
    }
  }

  lemma InterruptPool(k: Kernel, m: Moment)
    requires Inv(k) && Enabled(k, m) && (m.e.Plt? || m.e.It? || m.e.Dev?)
    ensures SamePool(k, HandleInterrupt(k, m))
  {
    if m.e.It? {
      TickPool(k, m.t');
    } else if m.e.Dev? {
      DevicePool(k, m);
    }
  }

  lemma TickPool(k: Kernel, t: int)
    requires Base(k) && SoftOk(k)
    ensures SamePool(k, Tick(k, t))
  {
    DrainFrame(k);
  }

  /** The pool after every event: a creation takes the first PCB and the next pid, a termination puts
      back its victims on top, the root of the subtree first; nothing else touches it. */
  lemma PoolStep(k: Kernel, m: Moment)
    requires Inv(k) && Enabled(k, m)
    ensures Step(k, m).nextPid == k.nextPid + if Creates(k, m.e) then 1 else 0
    ensures Creates(k, m.e) ==> Step(k, m).free == k.free[1..]
    ensures !Creates(k, m.e) && Target(k, m.e).None? ==> Step(k, m).free == k.free
    ensures Target(k, m.e).Some? ==> OnTop(Step(k, m).free, Target(k, m.e).value, k.free)
  {
    if m.e.Plt? || m.e.It? || m.e.Dev? {
      InterruptPool(k, m);
    } else if m.e.NSys6? || m.e.NSys8? || m.e.NSys9? {
      ReadPool(k, m);
    } else if m.e.NSys1? || m.e.NSys2? || m.e.NSys4? || m.e.Trap? {
      ProcessPool(k, m);
    } else {
      WaitPool(k, m);
    }
  }

  lemma ProcessPool(k: Kernel, m: Moment)
    requires Inv(k) && k.mode == Running && (m.e.NSys1? || m.e.NSys2? || m.e.NSys4? || m.e.Trap?)
    ensures HandleProcess(k, m).nextPid == k.nextPid + if Creates(k, m.e) then 1 else 0
    ensures Creates(k, m.e) ==> HandleProcess(k, m).free == k.free[1..]
    ensures !Creates(k, m.e) && Target(k, m.e).None? ==> HandleProcess(k, m).free == k.free
    ensures Target(k, m.e).Some? ==> OnTop(HandleProcess(k, m).free, Target(k, m.e).value, k.free)
  {
    if Target(k, m.e).Some? {
      KillPool(k, m);
    } else if m.e.NSys1? || m.e.NSys4? {
      MakePool(k, m);
    }
  }

  lemma MakePool(k: Kernel, m: Moment)
    requires Wf(k) && k.curr.Some? && (m.e.NSys1? || m.e.NSys4?)
    ensures HandleProcess(k, m).nextPid == k.nextPid + if Creates(k, m.e) then 1 else 0
    ensures HandleProcess(k, m).free == if Creates(k, m.e) then k.free[1..] else k.free
  {
  }

  lemma KillPool(k: Kernel, m: Moment)
    requires Inv(k) && k.mode == Running && (m.e.NSys2? || m.e.Trap?) && Target(k, m.e).Some?
    ensures HandleProcess(k, m).nextPid == k.nextPid && OnTop(HandleProcess(k, m).free, Target(k, m.e).value, k.free)
  {
    KillHandled(k, m);
    FreedOnTop(k, Target(k, m.e).value);
  }

  /** Who is live after every event: who was and is not terminated, and who is created. */
  lemma LiveStep(k: Kernel, m: Moment, q: nat)
    requires Inv(k) && Enabled(k, m)
    ensures Live(Step(k, m).pcb, Step(k, m).free, q) <==>
              (Live(k.pcb, k.free, q) && q !in Victims(k, m.e)) || (Creates(k, m.e) && q == k.free[0])
  {
    PoolStep(k, m);
    if Creates(k, m.e) {
      PartitionNoDup(k);
      assert k.free[0] in k.free;
      TakenLive(k.pcb, k.free, Step(k, m).pcb);
    } else if Target(k, m.e).Some? {
      KilledLive(k, m, q);
    }
  }

  lemma KilledLive(k: Kernel, m: Moment, q: nat)
    requires Inv(k) && Enabled(k, m) && Target(k, m.e).Some?
    ensures Live(Step(k, m).pcb, Step(k, m).free, q) <==> Live(k.pcb, k.free, q) && q !in Victims(k, m.e)
  {
    KilledFree(k, m);
    FreedLive(k.pcb, Step(k, m).pcb, k.free, Step(k, m).free, Victims(k, m.e));
  }

  lemma KilledFree(k: Kernel, m: Moment)
    requires Inv(k) && k.mode == Running && (m.e.NSys2? || m.e.Trap?) && Target(k, m.e).Some?
    ensures multiset(HandleProcess(k, m).free) == multiset(k.free) + multiset(Victims(k, m.e))
  {
    KillHandled(k, m);
    KillFree(k, Target(k, m.e).value);
  }

  lemma KillFree(k: Kernel, p: nat)
    requires Base(k) && Live(k.pcb, k.free, p)
    ensures multiset(TerminateProcess(k, p).free) == multiset(k.free) + multiset(Descendants(k.pcb, k.free, p))
  {
    BaseLoose(k);
    TerminateErases(k, p);
  }

  /** The new process, and what its creator is told. */
  lemma Newborn(k: Kernel, m: Moment)
    requires Inv(k) && Enabled(k, m) && Creates(k, m.e)
    ensures var k', p, c := Step(k, m), k.free[0], k.curr.value;
            && Live(k'.pcb, k'.free, p) && Live(k.pcb, k.free, c) && c != p
            && k'.pcb[p] == Pcb(Some(c), [], 0, m.e.prio, k.nextPid, 0, 0, m.e.support)
            && k'.pcb[c].a0 == k.nextPid
  {
    CreateResult(k, m.e.prio, m.e.support);
    PlaceOf(k, k.curr.value);
    ToldPid(k, m);
  }

  lemma ToldPid(k: Kernel, m: Moment)
    requires Inv(k) && Enabled(k, m) && Creates(k, m.e) && Live(k.pcb, k.free, k.curr.value)
    ensures Step(k, m).pcb[k.curr.value].a0 == k.nextPid
  {
    RecordStep(k, m, k.curr.value);
  }

  // ---------------------------------------------------------------- lives

  /** `q` is not terminated during the run. */
  ghost predicate Survives(k: Kernel, ms: seq<Moment>, q: nat)
    requires Inv(k) && Guarded(k, ms)
    decreases |ms|
  {
    ms == [] ||
    (q !in Victims(k, ms[0].e) && (RunTail(k, ms); Survives(Step(k, ms[0]), ms[1..], q)))
  }

  /** The semaphore `q` last waited on: where the run queued it last, or what it remembered before. */
  ghost function LastWait(k: Kernel, ms: seq<Moment>, q: nat, a: int): int
    requires Inv(k) && Guarded(k, ms)
    decreases |ms|
  {
    if ms == [] then a
    else
      RunTail(k, ms);
      LastWait(Step(k, ms[0]), ms[1..], q,
               if k.curr == Some(q) && WaitsOn(k, ms[0].e).Some? then WaitsOn(k, ms[0].e).value else a)
  }

  /** Who a process is stays. */
  ghost predicate SameProcess(x: Pcb, y: Pcb) {
    y.pid == x.pid && y.prio == x.prio && y.support == x.support && y.parent == x.parent
  }

  /** A process that is not terminated keeps its pid, priority, support structure and parent, and its
      p_semAdd is the semaphore it last waited on, whether or not it has been woken since. */
  lemma {:induction false} Lasting(k: Kernel, ms: seq<Moment>, q: nat)
    requires Inv(k) && Guarded(k, ms) && Live(k.pcb, k.free, q) && Survives(k, ms, q)
    ensures Live(Run(k, ms).pcb, Run(k, ms).free, q) && SameProcess(k.pcb[q], Run(k, ms).pcb[q])
    ensures Run(k, ms).pcb[q].semAdd == LastWait(k, ms, q, k.pcb[q].semAdd)
    decreases |ms|
  {
    if ms != [] {
      RunTail(k, ms);
      RecordStep(k, ms[0], q);
      LiveStep(k, ms[0], q);
      Lasting(Step(k, ms[0]), ms[1..], q);
    }
  }

  /** The number of processes created during the run. */
  ghost function Creations(k: Kernel, ms: seq<Moment>): nat
    requires Inv(k) && Guarded(k, ms)
    decreases |ms|
  {
    if ms == [] then 0
    else
      RunTail(k, ms);
      (if Creates(k, ms[0].e) then 1 else 0) + Creations(Step(k, ms[0]), ms[1..])
  }

  lemma {:induction false} PidCount(k: Kernel, ms: seq<Moment>)
    requires Inv(k) && Guarded(k, ms)
    ensures Run(k, ms).nextPid == k.nextPid + Creations(k, ms)
    decreases |ms|
  {
    if ms != [] {
      RunTail(k, ms);
      PoolStep(k, ms[0]);
      PidCount(Step(k, ms[0]), ms[1..]);
    }
  }

  /** Pids are never reused: whoever is live after a run with a pid given out before it has been live
      all along. */
  lemma {:induction false} Traced(k: Kernel, ms: seq<Moment>, q: nat)
    requires Inv(k) && Guarded(k, ms)
    requires Live(Run(k, ms).pcb, Run(k, ms).free, q) && Run(k, ms).pcb[q].pid < k.nextPid
    ensures Live(k.pcb, k.free, q) && Survives(k, ms, q)
    decreases |ms|
  {
    if ms != [] {
      RunTail(k, ms);
      PoolStep(k, ms[0]);
      Traced(Step(k, ms[0]), ms[1..], q);
      Lasting(Step(k, ms[0]), ms[1..], q);
      Older(k, ms[0], q);
    }
  }

  lemma Older(k: Kernel, m: Moment, q: nat)
    requires Inv(k) && Enabled(k, m) && Live(Step(k, m).pcb, Step(k, m).free, q) && Step(k, m).pcb[q].pid < k.nextPid
    ensures Live(k.pcb, k.free, q) && q !in Victims(k, m.e)
  {
    LiveStep(k, m, q);
    if Creates(k, m.e) {
      Newborn(k, m);
    }
  }

  /** The n-th process created after boot gets pid n + 1, and its creator is told so. */
  lemma PidsInOrder(devs: int, maxproc: nat, sem: map<int, int>, t: int, ms: seq<Moment>, m: Moment)
    requires devs > 0 && maxproc > 0
    requires Inv(Boot(devs, maxproc, sem, t)) && Guarded(Boot(devs, maxproc, sem, t), ms)
    requires var k := Run(Boot(devs, maxproc, sem, t), ms); Enabled(k, m) && Creates(k, m.e)
    ensures var k0 := Boot(devs, maxproc, sem, t);
            var k := Run(k0, ms);
            && k.curr.Some? && k.curr.value < |k.pcb|
            && Step(k, m).pcb[k.curr.value].a0 == Creations(k0, ms) + 2
  {
    PidCount(Boot(devs, maxproc, sem, t), ms);
    Newborn(Run(Boot(devs, maxproc, sem, t), ms), m);
  }

  // ---------------------------------------------------------------- what a process is told

  /** `r` is reached from the creation `m` of a process by the guarded run `ms`, and the running
      process has the pid that the creator was told. */
  ghost predicate Grown(k: Kernel, m: Moment, ms: seq<Moment>, r: Kernel) {
    && Inv(k) && Enabled(k, m) && Creates(k, m.e)
    && Inv(Step(k, m)) && Guarded(Step(k, m), ms) && r == Run(Step(k, m), ms)
    && r.curr.Some? && r.curr.value < |r.pcb| && k.curr.Some? && k.curr.value < |k.pcb|
    && r.pcb[r.curr.value].pid == Step(k, m).pcb[k.curr.value].a0
  }

  /** That process is the one created, and is what it was created as. */
  lemma GrownUp(k: Kernel, m: Moment, ms: seq<Moment>, r: Kernel)
    requires Grown(k, m, ms, r)
    ensures r.curr == Some(k.free[0]) && Live(r.pcb, r.free, k.free[0])
    ensures SameProcess(Step(k, m).pcb[k.free[0]], r.pcb[k.free[0]])
    ensures Survives(Step(k, m), ms, k.free[0])
  {
    var k1, q := Step(k, m), r.curr.value;
    PlaceOf(r, q);
    Newborn(k, m);
    PoolStep(k, m);
    Traced(k1, ms, q);
    Lasting(k1, ms, q);
  }

  /** As long as it lives, its creator does, with the pid it had. */
  lemma CreatorLives(k: Kernel, m: Moment, ms: seq<Moment>, r: Kernel)
    requires Grown(k, m, ms, r)
    ensures var c := k.curr.value;
            Live(r.pcb, r.free, c) && r.pcb[c].pid == k.pcb[c].pid && k.free[0] in r.pcb[c].child
  {
    var p, c := k.free[0], k.curr.value;
    GrownUp(k, m, ms, r);
    Newborn(k, m);
    RecordStep(k, m, c);
    assert NodeOk(r.pcb, r.free, p);
    ParentPidLasts(Step(k, m), ms, p);
  }

  /** A parent outlives its children. */
  lemma {:induction false} ParentPidLasts(k: Kernel, ms: seq<Moment>, p: nat)
    requires Inv(k) && Guarded(k, ms) && Live(k.pcb, k.free, p) && Survives(k, ms, p) && k.pcb[p].parent.Some?
    ensures Live(k.pcb, k.free, k.pcb[p].parent.value) && Survives(k, ms, k.pcb[p].parent.value)
    ensures k.pcb[p].parent.value < |Run(k, ms).pcb|
    ensures Run(k, ms).pcb[k.pcb[p].parent.value].pid == k.pcb[k.pcb[p].parent.value].pid
    decreases |ms|
  {
    var c := k.pcb[p].parent.value;
    assert NodeOk(k.pcb, k.free, p);
    if ms != [] {
      RunTail(k, ms);
      ParentSpared(k, ms[0].e, p);
      RecordStep(k, ms[0], p);
      LiveStep(k, ms[0], p);
      ParentPidLasts(Step(k, ms[0]), ms[1..], p);
    }
    Lasting(k, ms, c);
  }

  lemma ParentSpared(k: Kernel, e: Event, p: nat)
    requires Inv(k) && (k.mode == Running || e.It? || e.Dev?) && Live(k.pcb, k.free, p) && k.pcb[p].parent.Some?
    requires p !in Victims(k, e)
    ensures k.pcb[p].parent.value !in Victims(k, e)
  {
    if Target(k, e).Some? {
      DescendantsClosed(k.pcb, k.free, k.nextPid, Target(k, e).value);
    }
  }

  /** What a process is told about itself, whenever in its life it asks: the support structure that
      its creator passed, the pid that its creator was told, and its creator's pid. */
  lemma ToldTheTruth(k: Kernel, m: Moment, ms: seq<Moment>, r: Kernel, m2: Moment)
    requires Grown(k, m, ms, r) && Enabled(r, m2)
    ensures var a0 := Step(r, m2).pcb[r.curr.value].a0;
            && (m2.e == NSys8 ==> a0 == m.e.support)
            && (m2.e == NSys9(false) ==> a0 == Step(k, m).pcb[k.curr.value].a0)
            && (m2.e == NSys9(true) ==> a0 == k.pcb[k.curr.value].pid)
  {
    GrownUp(k, m, ms, r);
    Newborn(k, m);
    CreatorLives(k, m, ms, r);
    Asks(r, m2, k.curr.value);
  }

  lemma Asks(r: Kernel, m: Moment, c: nat)
    requires Inv(r) && Enabled(r, m) && r.curr.Some? && Live(r.pcb, r.free, r.curr.value)
    requires Live(r.pcb, r.free, c) && r.curr.value in r.pcb[c].child
    ensures var a0, x := Step(r, m).pcb[r.curr.value].a0, r.pcb[r.curr.value];
            && (m.e == NSys8 ==> a0 == x.support)
            && (m.e == NSys9(false) ==> a0 == x.pid)
            && (m.e == NSys9(true) ==> a0 == r.pcb[c].pid)
  {
    if m.e.NSys8? || m.e.NSys9? {
      RecordStep(r, m, r.curr.value);
    }
  }

  /** Its trap, whenever it comes, is passed up with no other effect if its creator gave it a support
      structure; if not, it and its progeny die of it. */
  lemma TrapFate(k: Kernel, m: Moment, ms: seq<Moment>, r: Kernel, m2: Moment)
    requires Grown(k, m, ms, r) && Enabled(r, m2) && m2.e.Trap?
    ensures if m.e.support != 0 then Step(r, m2) == r.(clock := m2.t')
            else !Live(Step(r, m2).pcb, Step(r, m2).free, r.curr.value)
  {
    GrownUp(k, m, ms, r);
    Newborn(k, m);
    PassedUp(r, m2);
    LiveStep(r, m2, r.curr.value);
    if m.e.support == 0 {
      assert !Creates(r, m2.e);
    }
  }

  /** The first process: pid 1, no parent, no support structure, for as long as it lives. */
  lemma FirstLife(devs: int, maxproc: nat, sem: map<int, int>, t: int, ms: seq<Moment>, m: Moment)
    requires devs > 0 && maxproc > 0
    requires Inv(Boot(devs, maxproc, sem, t)) && Guarded(Boot(devs, maxproc, sem, t), ms)
    requires var r := Run(Boot(devs, maxproc, sem, t), ms);
             Enabled(r, m) && r.curr.Some? && r.curr.value < |r.pcb| && r.pcb[r.curr.value].pid == 1
    ensures var r := Run(Boot(devs, maxproc, sem, t), ms);
            var a0 := Step(r, m).pcb[r.curr.value].a0;
            && (m.e == NSys8 ==> a0 == 0) && (m.e == NSys9(false) ==> a0 == 1) && (m.e == NSys9(true) ==> a0 == 0)
            && (m.e == Trap ==> !Live(Step(r, m).pcb, Step(r, m).free, r.curr.value))
  {
    var k := Boot(devs, maxproc, sem, t);
    var r := Run(k, ms);
    PlaceOf(r, r.curr.value);
    Traced(k, ms, r.curr.value);
    Lasting(k, ms, r.curr.value);
    BootParts(devs, maxproc, sem, t);
    FirstAsks(r, m);
  }

  lemma FirstAsks(r: Kernel, m: Moment)
    requires Inv(r) && Enabled(r, m) && r.curr.Some?
    requires var x := r.pcb[r.curr.value]; x.pid == 1 && x.parent.None? && x.support == 0
    ensures var a0 := Step(r, m).pcb[r.curr.value].a0;
            && (m.e == NSys8 ==> a0 == 0) && (m.e == NSys9(false) ==> a0 == 1) && (m.e == NSys9(true) ==> a0 == 0)
            && (m.e == Trap ==> !Live(Step(r, m).pcb, Step(r, m).free, r.curr.value))
  {
    var q := r.curr.value;
    PlaceOf(r, q);
    if m.e.Trap? {
      PassedUp(r, m);
      LiveStep(r, m, q);
    } else if m.e.NSys8? || m.e.NSys9? {
      RecordStep(r, m, q);
      forall f: nat | Live(r.pcb, r.free, f)
        ensures q !in r.pcb[f].child
      {
        assert NodeOk(r.pcb, r.free, f);
      }
    }
  }
}
