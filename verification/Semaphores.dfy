/** The queue discipline of every semaphore over every run. */
module Semaphores {
  import opened Queues
  import opened NucleusSpec
  import opened Invariant
  import opened Handlers
  import opened Subtree
  import opened Termination
  import opened Runs

  // ---------------------------------------------------------------- reference semantics

  /** The root of the subtree an event kills, if it kills one. */
  function Target(k: Kernel, e: Event): Option<nat>
    requires Inv(k) && (k.mode == Running || e.It? || e.Dev?)
  {
    match e
    case NSys2(pid) => if pid == 0 then k.curr else FindByPid(k, pid)
    case Trap => if k.pcb[k.curr.value].support != NULL then None else k.curr
    case _ => None
  }

  ghost function Victims(k: Kernel, e: Event): set<nat>
    requires Inv(k) && (k.mode == Running || e.It? || e.Dev?)
  {
    var p := Target(k, e);
    if p.None? then {} else Descendants(k.pcb, k.free, p.value)
  }

  /** The running process joins the queue of `a`. */
  predicate Joins(k: Kernel, e: Event, a: int) {
    || (e == NSys3(a) && Val(k, a) <= 0)
    || (e.NSys5? && a == DevAddr(k.devs, SemIndex(e.a1)))
    || (e.NSys7? && a == DevAddr(k.devs, NSUPPSEM))
  }

  /** A V reaches `a`: from a process or from the device the semaphore belongs to. */
  predicate Signals(k: Kernel, e: Event, a: int) {
    || e == NSys4(a)
    || (e.Dev? && var s := Interrupting(e.line, e.pending, e.recv, e.transm, e.status);
        s.Some? && a == DevAddr(k.devs, s.value.0))
  }

  /** What one event makes of the queue of `a`: append the caller, wake the oldest, empty the
      clock's queue, or take out the victims of a termination. */
  ghost function NextWaiters(k: Kernel, e: Event, a: int): seq<nat>
    requires Inv(k) && (k.mode == Running || e.It? || e.Dev?)
  {
    var w := Waiters(k.asl, a);
    if Joins(k, e, a) && k.curr.Some? then w + [k.curr.value]
    else if Signals(k, e, a) && w != [] then w[1..]
    else if e.It? && a == DevAddr(k.devs, NSUPPSEM) then []
    else Without(w, Victims(k, e))
  }

  function NextVal(k: Kernel, e: Event, a: int): int {
    if e == NSys3(a) && Val(k, a) > 0 then Val(k, a) - 1
    else if Signals(k, e, a) && Waiters(k.asl, a) == [] then Val(k, a) + 1
    else if e.It? && a == DevAddr(k.devs, NSUPPSEM) then 0
    else Val(k, a)
  }

  // ---------------------------------------------------------------- each handler against it

  lemma DispatchAsl(k: Kernel, t: int)
    ensures Dispatch(k, t).asl == k.asl && Dispatch(k, t).sem == k.sem
  {
  }

  lemma BlockQueue(k: Kernel, key: int, a: int)
    requires Base(k) && k.curr.Some?
    ensures Waiters(Block(k, key).asl, a) == Waiters(k.asl, a) + if a == key then [k.curr.value] else []
    ensures Block(k, key).sem == k.sem
  {
    BlockingNeverFails(k, key);
    EnqueueKeys(k.asl, key, k.curr.value);
    if a != key {
      EnqueueOther(k.asl, key, k.curr.value, a);
    }
  }

  lemma SoftWaitQueue(k: Kernel, i: int, t: int, t': int, a: int)
    requires Inv(k) && k.curr.Some?
    ensures Waiters(SoftWait(k, i, t, t').asl, a) ==
            Waiters(k.asl, a) + if a == DevAddr(k.devs, i) then [k.curr.value] else []
    ensures SoftWait(k, i, t, t').sem == k.sem
  {
    ChargeBase(k, t);
    var k1 := Charge(k, t);
    var k2 := k1.(softBlock := k1.softBlock + 1);
    Regroup(k1, k2);
    BlockQueue(k2, DevAddr(k.devs, i), a);
    DispatchAsl(Block(k2, DevAddr(k.devs, i)), t');
  }

  lemma PasserenQueue(k: Kernel, s: int, t: int, t': int, a: int)
    requires Inv(k) && k.curr.Some?
    ensures Waiters(Passeren(k, s, t, t').asl, a) ==
            Waiters(k.asl, a) + if a == s && Val(k, a) <= 0 then [k.curr.value] else []
    ensures Val(Passeren(k, s, t, t'), a) == Val(k, a) - if a == s && Val(k, a) > 0 then 1 else 0
  {
    if Val(k, s) <= 0 {
      ChargeBase(k, t);
      BlockQueue(Charge(k, t), s, a);
      DispatchAsl(Block(Charge(k, t), s), t');
    }
  }

  lemma WakeQueue(k: Kernel, key: int, a: int)
    requires Base(k) && Waiters(k.asl, key) != [] && Waiters(k.asl, key)[0] < |k.pcb|
    ensures Waiters(Wake(k, key).asl, a) == if a == key then Waiters(k.asl, a)[1..] else Waiters(k.asl, a)
    ensures Wake(k, key).sem == k.sem
  {
    if a == key {
      DequeueKeys(k.asl, key, k.pcb);
    } else {
      DequeueOther(k.asl, key, a);
    }
  }

  lemma VerhogenQueue(k: Kernel, s: int, a: int)
    requires Inv(k)
    ensures Waiters(Verhogen(k, s).asl, a) ==
            if a == s && Waiters(k.asl, a) != [] then Waiters(k.asl, a)[1..] else Waiters(k.asl, a)
    ensures Val(Verhogen(k, s), a) == Val(k, a) + if a == s && Waiters(k.asl, a) == [] then 1 else 0
  {
    if Waiters(k.asl, s) != [] {
      WakeBase(k, s);
      WakeQueue(k, s, a);
    }
  }

  lemma SignalQueue(k: Kernel, i: int, status: int, a: int)
    requires Base(k) && SoftOk(k)
    ensures var s := DevAddr(k.devs, i);
            && Waiters(Signal(k, i, status).asl, a) ==
                 (if a == s && Waiters(k.asl, a) != [] then Waiters(k.asl, a)[1..] else Waiters(k.asl, a))
            && Val(Signal(k, i, status), a) == Val(k, a) + if a == s && Waiters(k.asl, a) == [] then 1 else 0
  {
    var s := DevAddr(k.devs, i);
    if Waiters(k.asl, s) != [] {
      WakeBase(k, s);
      WakeQueue(k, s, a);
    }
  }

  lemma {:induction false} DrainQueue(k: Kernel, a: int)
    requires Base(k) && SoftOk(k)
    ensures Waiters(Drain(k).asl, a) == if a == DevAddr(k.devs, NSUPPSEM) then [] else Waiters(k.asl, a)
    ensures Drain(k).sem == k.sem
    decreases |Blocked(k.asl)|
  {
    var s := DevAddr(k.devs, NSUPPSEM);
    if Waiters(k.asl, s) != [] {
      SoftWakeBase(k, s);
      WakeQueue(k, s, a);
      DequeueBlocked(k.asl, s);
      DrainQueue(Wake(k, s).(softBlock := k.softBlock - 1), a);
    }
  }

  lemma TickQueue(k: Kernel, t: int, a: int)
    requires Inv(k)
    ensures var s := DevAddr(k.devs, NSUPPSEM);
            && Waiters(Tick(k, t).asl, a) == (if a == s then [] else Waiters(k.asl, a))
            && Val(Tick(k, t), a) == if a == s then 0 else Val(k, a)
  {
    DrainQueue(k, a);
    DrainBase(k);
    var k1 := Drain(k);
    var k2 := k1.(sem := k1.sem[DevAddr(k.devs, NSUPPSEM) := 0]);
    DispatchAsl(k2, t);
    if k2.curr.Some? {
      DispatchAsl(MakeReady(k2, k2.curr.value), t);
    }
  }

  lemma YieldQueue(k: Kernel, t: int, t': int)
    requires Wf(k) && k.curr.Some?
    ensures Yield(k, t, t').asl == k.asl && Yield(k, t, t').sem == k.sem
    ensures LocalTimer(k, t, t').asl == k.asl && LocalTimer(k, t, t').sem == k.sem
  {
  }

  lemma KillQueue(k: Kernel, p: nat, t: int, a: int)
    requires Inv(k) && Live(k.pcb, k.free, p)
    ensures var k' := Dispatch(TerminateProcess(k, p), t);
            Waiters(k'.asl, a) == Without(Waiters(k.asl, a), Descendants(k.pcb, k.free, p)) && k'.sem == k.sem
  {
    KillAsl(k, p);
    EraseWaiters(k.asl, k.pcb, Descendants(k.pcb, k.free, p), a);
    DispatchAsl(TerminateProcess(k, p), t);
  }

  lemma KillAsl(k: Kernel, p: nat)
    requires Base(k) && Live(k.pcb, k.free, p)
    ensures TerminateProcess(k, p).asl == Erase(k.asl, Descendants(k.pcb, k.free, p))
    ensures TerminateProcess(k, p).sem == k.sem
  {
    BaseLoose(k);
    TerminateErases(k, p);
  }

  // ---------------------------------------------------------------- one step

  /** Whatever the event, the queue of every semaphore becomes what the reference says. */
  lemma QueueStep(k: Kernel, m: Moment, a: int)
    requires Inv(k) && Enabled(k, m)
    ensures Waiters(Step(k, m).asl, a) == NextWaiters(k, m.e, a)
    ensures Val(Step(k, m), a) == NextVal(k, m.e, a)
  {
    if m.e.Plt? || m.e.It? || m.e.Dev? {
      InterruptQueue(k, m, a);
    } else if m.e.NSys6? || m.e.NSys8? || m.e.NSys9? {
      ReadQueue(k, m, a);
    } else if m.e.NSys1? || m.e.NSys2? || m.e.NSys4? || m.e.Trap? {
      ProcessQueue(k, m, a);
    } else {
      WaitQueue(k, m, a);
    }
  }

  lemma ReadQueue(k: Kernel, m: Moment, a: int)
    requires Inv(k) && k.mode == Running && (m.e.NSys6? || m.e.NSys8? || m.e.NSys9?)
    ensures Waiters(HandleRead(k, m).asl, a) == NextWaiters(k, m.e, a)
    ensures Val(HandleRead(k, m), a) == NextVal(k, m.e, a)
  {
    NoVictims(k, m.e, a);
    assert HandleRead(k, m).asl == k.asl && HandleRead(k, m).sem == k.sem;
  }

  lemma WaitQueue(k: Kernel, m: Moment, a: int)
    requires Inv(k) && k.mode == Running && (m.e.NSys3? || m.e.NSys5? || m.e.NSys7? || m.e.NSys10?)
    ensures Waiters(HandleWait(k, m).asl, a) == NextWaiters(k, m.e, a)
    ensures Val(HandleWait(k, m), a) == NextVal(k, m.e, a)
  {
    if m.e.NSys3? {
      WaitCallQueue(k, m, a);
    } else if m.e.NSys10? {
      NoVictims(k, m.e, a);
      YieldQueue(k, m.t, m.t');
    } else {
      SoftCallQueue(k, m, a);
    }
  }

  lemma WaitCallQueue(k: Kernel, m: Moment, a: int)
    requires Inv(k) && k.mode == Running && m.e.NSys3?
    ensures Waiters(HandleWait(k, m).asl, a) == NextWaiters(k, m.e, a)
    ensures Val(HandleWait(k, m), a) == NextVal(k, m.e, a)
  {
    NoVictims(k, m.e, a);
    PasserenQueue(k, m.e.a, m.t, m.t', a);
  }

  lemma SoftCallQueue(k: Kernel, m: Moment, a: int)
    requires Inv(k) && k.mode == Running && (m.e.NSys5? || m.e.NSys7?)
    ensures Waiters(HandleWait(k, m).asl, a) == NextWaiters(k, m.e, a)
    ensures Val(HandleWait(k, m), a) == NextVal(k, m.e, a)
  {
    SoftCallEffect(k, m, a);
    SoftCallNext(k, m.e, a);
  }

  lemma SoftCallNext(k: Kernel, e: Event, a: int)
    requires Inv(k) && k.mode == Running && (e.NSys5? || e.NSys7?)
    ensures NextWaiters(k, e, a) == Waiters(k.asl, a) + if Joins(k, e, a) then [k.curr.value] else []
    ensures NextVal(k, e, a) == Val(k, a)
  {
    NoVictims(k, e, a);
  }

  lemma SoftCallEffect(k: Kernel, m: Moment, a: int)
    requires Inv(k) && k.mode == Running && (m.e.NSys5? || m.e.NSys7?)
    ensures Waiters(HandleWait(k, m).asl, a) == Waiters(k.asl, a) + if Joins(k, m.e, a) then [k.curr.value] else []
    ensures HandleWait(k, m).sem == k.sem
  {
    SoftWaitQueue(k, if m.e.NSys5? then SemIndex(m.e.a1) else NSUPPSEM, m.t, m.t', a);
  }

  /** Events that kill nobody leave the queues they do not join or signal. */
  lemma NoVictims(k: Kernel, e: Event, a: int)
    requires Inv(k) && (k.mode == Running || e.It? || e.Dev?) && !e.NSys2? && !e.Trap?
    ensures NextWaiters(k, e, a) ==
            var w := Waiters(k.asl, a);
            if Joins(k, e, a) && k.curr.Some? then w + [k.curr.value]
            else if Signals(k, e, a) && w != [] then w[1..]
            else if e.It? && a == DevAddr(k.devs, NSUPPSEM) then []
            else w
  {
    WithoutNone(Waiters(k.asl, a), {});
  }

  lemma InterruptQueue(k: Kernel, m: Moment, a: int)
    requires Inv(k) && Enabled(k, m) && (m.e.Plt? || m.e.It? || m.e.Dev?)
    ensures Waiters(HandleInterrupt(k, m).asl, a) == NextWaiters(k, m.e, a)
    ensures Val(HandleInterrupt(k, m), a) == NextVal(k, m.e, a)
  {
    NoVictims(k, m.e, a);
    match m.e
    case Plt => YieldQueue(k, m.t, m.t');
    case It => TickQueue(k, m.t', a);
    case Dev(line, pending, recv, transm, status) => DeviceQueue(k, m, a);
  }

  lemma DeviceQueue(k: Kernel, m: Moment, a: int)
    requires Inv(k) && m.e.Dev?
    ensures var k' := Device(k, m.e.line, m.e.pending, m.e.recv, m.e.transm, m.e.status, m.t');
            && Waiters(k'.asl, a) ==
                 (if Signals(k, m.e, a) && Waiters(k.asl, a) != [] then Waiters(k.asl, a)[1..] else Waiters(k.asl, a))
            && Val(k', a) == NextVal(k, m.e, a)
  {
    var s := Interrupting(m.e.line, m.e.pending, m.e.recv, m.e.transm, m.e.status);
    if s.Some? {
      SignalQueue(k, s.value.0, s.value.1, a);
      DispatchAsl(Signal(k, s.value.0, s.value.1), m.t');
    } else {
      DispatchAsl(k, m.t');
    }
  }

  lemma ProcessQueue(k: Kernel, m: Moment, a: int)
    requires Inv(k) && k.mode == Running && (m.e.NSys1? || m.e.NSys2? || m.e.NSys4? || m.e.Trap?)
    ensures Waiters(HandleProcess(k, m).asl, a) == NextWaiters(k, m.e, a)
    ensures Val(HandleProcess(k, m), a) == NextVal(k, m.e, a)
  {
    if m.e.NSys4? {
      SignalCallQueue(k, m, a);
    } else if m.e.NSys1? {
      CreateQueue(k, m, a);
    } else {
      KillerQueue(k, m, a);
    }
  }

  lemma CreateQueue(k: Kernel, m: Moment, a: int)
    requires Inv(k) && k.mode == Running && m.e.NSys1?
    ensures Waiters(HandleProcess(k, m).asl, a) == NextWaiters(k, m.e, a)
    ensures Val(HandleProcess(k, m), a) == NextVal(k, m.e, a)
  {
    NoVictims(k, m.e, a);
    assert HandleProcess(k, m).asl == k.asl && HandleProcess(k, m).sem == k.sem;
  }

  lemma SignalCallQueue(k: Kernel, m: Moment, a: int)
    requires Inv(k) && k.mode == Running && m.e.NSys4?
    ensures Waiters(HandleProcess(k, m).asl, a) == NextWaiters(k, m.e, a)
    ensures Val(HandleProcess(k, m), a) == NextVal(k, m.e, a)
  {
    SignalCallNext(k, m.e, a);
    VerhogenQueue(k, m.e.a, a);
    assert HandleProcess(k, m) == Verhogen(k, m.e.a);
  }

  lemma SignalCallNext(k: Kernel, e: Event, a: int)
    requires Inv(k) && k.mode == Running && e.NSys4?
    ensures NextWaiters(k, e, a) == if a == e.a && Waiters(k.asl, a) != [] then Waiters(k.asl, a)[1..] else Waiters(k.asl, a)
    ensures NextVal(k, e, a) == Val(k, a) + if a == e.a && Waiters(k.asl, a) == [] then 1 else 0
  {
    NoVictims(k, e, a);
  }

  lemma KillerQueue(k: Kernel, m: Moment, a: int)
    requires Inv(k) && k.mode == Running && (m.e.NSys2? || m.e.Trap?)
    ensures Waiters(HandleProcess(k, m).asl, a) == NextWaiters(k, m.e, a)
    ensures Val(HandleProcess(k, m), a) == NextVal(k, m.e, a)
  {
    KillerEffect(k, m, a);
    KillerNext(k, m.e, a);
  }

  lemma KillerNext(k: Kernel, e: Event, a: int)
    requires Inv(k) && k.mode == Running && (e.NSys2? || e.Trap?)
    ensures NextWaiters(k, e, a) == Without(Waiters(k.asl, a), Victims(k, e))
    ensures NextVal(k, e, a) == Val(k, a)
  {
  }

  lemma KillerEffect(k: Kernel, m: Moment, a: int)
    requires Inv(k) && k.mode == Running && (m.e.NSys2? || m.e.Trap?)
    ensures Waiters(HandleProcess(k, m).asl, a) == Without(Waiters(k.asl, a), Victims(k, m.e))
    ensures HandleProcess(k, m).sem == k.sem
  {
    WithoutNone(Waiters(k.asl, a), {});
    var p := Target(k, m.e);
    if p.Some? {
      PlaceOf(k, k.curr.value);
      KillQueue(k, p.value, m.t', a);
    }
  }

  /** A positive value means that nobody waits. */
  predicate Law(k: Kernel, a: int) { Val(k, a) > 0 ==> Waiters(k.asl, a) == [] }

  /** Where the law holds of a semaphore, the one thing that breaks it is a process that joins the
      queue in spite of a positive value, as nsys5 and nsys7 do. */
  lemma LawStep(k: Kernel, m: Moment, a: int)
    requires Inv(k) && Enabled(k, m) && Law(k, a)
    ensures Law(Step(k, m), a) <==> !(Joins(k, m.e, a) && k.curr.Some? && Val(k, a) > 0)
  {
    QueueStep(k, m, a);
  }

  // ---------------------------------------------------------------- whole runs

  /** A P on `a` completes: at once, or because a V wakes the process that issued it. */
  predicate Completes(k: Kernel, e: Event, a: int) {
    (e == NSys3(a) && Val(k, a) > 0) || (e == NSys4(a) && Waiters(k.asl, a) != [])
  }

  ghost function Completed(k: Kernel, ms: seq<Moment>, a: int): nat
    requires Inv(k) && Guarded(k, ms)
    decreases |ms|
  {
    if ms == [] then 0
    else
      StepInv(k, ms[0]);
      (if Completes(k, ms[0].e, a) then 1 else 0) + Completed(Step(k, ms[0]), ms[1..], a)
  }

  /** The number of events of the run equal to `e`. */
  function Count(ms: seq<Moment>, e: Event): nat {
    if ms == [] then 0 else (if ms[0].e == e then 1 else 0) + Count(ms[1..], e)
  }

  function JoinsNow(k: Kernel, e: Event, a: int): seq<nat> {
    if Joins(k, e, a) && k.curr.Some? then [k.curr.value] else []
  }

  function WokenNow(k: Kernel, e: Event, a: int): seq<nat> {
    if Signals(k, e, a) && Waiters(k.asl, a) != [] then [Waiters(k.asl, a)[0]] else []
  }

  /** The processes that block on `a` during the run, in order. */
  ghost function Joined(k: Kernel, ms: seq<Moment>, a: int): seq<nat>
    requires Inv(k) && Guarded(k, ms)
    decreases |ms|
  {
    if ms == [] then []
    else
      StepInv(k, ms[0]);
      JoinsNow(k, ms[0].e, a) + Joined(Step(k, ms[0]), ms[1..], a)
  }

  /** The processes a V on `a` wakes during the run, in order. */
  ghost function Woken(k: Kernel, ms: seq<Moment>, a: int): seq<nat>
    requires Inv(k) && Guarded(k, ms)
    decreases |ms|
  {
    if ms == [] then []
    else
      StepInv(k, ms[0]);
      WokenNow(k, ms[0].e, a) + Woken(Step(k, ms[0]), ms[1..], a)
  }

  /** How many processes are terminated while waiting on `a`. */
  ghost function KilledWaiting(k: Kernel, ms: seq<Moment>, a: int): nat
    requires Inv(k) && Guarded(k, ms)
    decreases |ms|
  {
    if ms == [] then 0
    else
      StepInv(k, ms[0]);
      WithoutLength(Waiters(k.asl, a), Victims(k, ms[0].e));
      |Waiters(k.asl, a)| - |Without(Waiters(k.asl, a), Victims(k, ms[0].e))| +
      KilledWaiting(Step(k, ms[0]), ms[1..], a)
  }

  lemma {:induction false} WithoutLength(s: seq<nat>, d: set<nat>)
    ensures |Without(s, d)| <= |s|
  {
    if s != [] {
      WithoutLength(s[1..], d);
    }
  }

  /** A semaphore other than a device's is its initial value plus the Vs minus the completed
      Ps, and never negative if it did not start so. */
  lemma {:induction false} Conservation(k: Kernel, ms: seq<Moment>, a: int)
    requires Inv(k) && Guarded(k, ms) && !IsDevice(k.devs, a)
    ensures Val(Run(k, ms), a) == Val(k, a) + Count(ms, NSys4(a)) - Completed(k, ms, a)
    ensures Val(k, a) >= 0 ==> Val(Run(k, ms), a) >= 0
    decreases |ms|
  {
    if ms != [] {
      StepInv(k, ms[0]);
      QueueStep(k, ms[0], a);
      NotSignalled(k, ms[0], a);
      Conservation(Step(k, ms[0]), ms[1..], a);
    }
  }

  /** Interrupts only signal device semaphores. */
  lemma NotSignalled(k: Kernel, m: Moment, a: int)
    requires Enabled(k, m) && !IsDevice(k.devs, a)
    ensures Signals(k, m.e, a) ==> m.e == NSys4(a)
    ensures a != DevAddr(k.devs, NSUPPSEM)
  {
  }

  /** Mutual exclusion: at no point of any run are more processes past a P on `a` without the
      matching V than the semaphore allowed at the start; for a mutex that is one. */
  lemma MutualExclusion(k: Kernel, ms: seq<Moment>, a: int)
    requires Inv(k) && Guarded(k, ms) && !IsDevice(k.devs, a) && Val(k, a) >= 0
    ensures Completed(k, ms, a) - Count(ms, NSys4(a)) <= Val(k, a)
    ensures Val(Run(k, ms), a) > 0 ==> Waiters(Run(k, ms).asl, a) == []
  {
    Conservation(k, ms, a);
    ActiveKey(Run(k, ms).asl, Run(k, ms).pcb, a);
  }

  /** `x` is `y` with some elements left out. */
  predicate Subseq(x: seq<nat>, y: seq<nat>) {
    x == [] || (y != [] && if x[0] == y[0] then Subseq(x[1..], y[1..]) else Subseq(x, y[1..]))
  }

  lemma {:induction false} SubseqTail(x: seq<nat>, y: seq<nat>)
    requires x != [] && Subseq(x, y)
    ensures Subseq(x[1..], y)
    decreases |y|, 0
  {
    if x[0] == y[0] {
      if x[1..] != [] {
        if x[1] == y[0] {
          SubseqTail(x[1..], y[1..]);
        }
      }
    } else {
      SubseqTail(x, y[1..]);
      SubseqCons(x[1..], y[1..], y[0]);
    }
  }

  lemma {:induction false} SubseqCons(x: seq<nat>, y: seq<nat>, z: nat)
    requires Subseq(x, y)
    ensures Subseq(x, [z] + y)
    decreases |y|, 1
  {
    assert ([z] + y)[1..] == y;
    if x != [] && x[0] == z {
      SubseqTail(x, y);
    }
  }

  lemma {:induction false} SubseqWithout(x: seq<nat>, w: seq<nat>, d: set<nat>, j: seq<nat>)
    requires Subseq(x, Without(w, d) + j)
    ensures Subseq(x, w + j)
  {
    if w == [] {
      assert w + j == j && Without(w, d) + j == j;
    } else {
      assert w + j == [w[0]] + (w[1..] + j);
      if w[0] in d {
        SubseqWithout(x, w[1..], d, j);
        SubseqCons(x, w[1..] + j, w[0]);
      } else if x != [] {
        assert Without(w, d) + j == [w[0]] + (Without(w[1..], d) + j);
        assert (Without(w, d) + j)[1..] == Without(w[1..], d) + j;
        assert (w + j)[1..] == w[1..] + j;
        SubseqWithout(if x[0] == w[0] then x[1..] else x, w[1..], d, j);
      }
    }
  }

  /** First come, first served: over any run, those woken from `a` followed by those still
      waiting are those who waited followed by those who joined, in that order, but for the
      ones terminated while waiting. The clock's queue, emptied by each tick, is excluded. */
  lemma {:induction false} Fifo(k: Kernel, ms: seq<Moment>, a: int)
    requires Inv(k) && Guarded(k, ms) && a != DevAddr(k.devs, NSUPPSEM)
    ensures Subseq(Woken(k, ms, a) + Waiters(Run(k, ms).asl, a), Waiters(k.asl, a) + Joined(k, ms, a))
    ensures |Woken(k, ms, a)| + |Waiters(Run(k, ms).asl, a)| + KilledWaiting(k, ms, a) ==
            |Waiters(k.asl, a)| + |Joined(k, ms, a)|
    decreases |ms|
  {
    if ms == [] {
      SubseqSelf(Waiters(k.asl, a));
      assert Waiters(k.asl, a) + [] == Waiters(k.asl, a);
      assert [] + Waiters(k.asl, a) == Waiters(k.asl, a);
    } else {
      var m := ms[0];
      StepInv(k, m);
      QueueStep(k, m, a);
      var k1 := Step(k, m);
      Fifo(k1, ms[1..], a);
      var rest := Waiters(Run(k1, ms[1..]).asl, a);
      FifoStep(k, m.e, a, Woken(k1, ms[1..], a), rest, Joined(k1, ms[1..], a));
      FifoLength(k, m.e, a);
    }
  }

  lemma FifoStep(k: Kernel, e: Event, a: int, x: seq<nat>, r: seq<nat>, j: seq<nat>)
    requires Inv(k) && (k.mode == Running || e.It? || e.Dev?) && a != DevAddr(k.devs, NSUPPSEM)
    requires Subseq(x + r, NextWaiters(k, e, a) + j)
    ensures Subseq((WokenNow(k, e, a) + x) + r, Waiters(k.asl, a) + (JoinsNow(k, e, a) + j))
  {
    var w := Waiters(k.asl, a);
    if Joins(k, e, a) && k.curr.Some? {
      FifoJoin(w, [k.curr.value], x, r, j);
    } else if Signals(k, e, a) && w != [] {
      FifoWake(w, x, r, j);
    } else {
      SubseqWithout(x + r, w, Victims(k, e), j);
      FifoJoin(w, [], x, r, j);
    }
  }

  lemma FifoLength(k: Kernel, e: Event, a: int)
    requires Inv(k) && (k.mode == Running || e.It? || e.Dev?) && a != DevAddr(k.devs, NSUPPSEM)
    ensures |NextWaiters(k, e, a)| - |Without(Waiters(k.asl, a), Victims(k, e))| ==
            |JoinsNow(k, e, a)| - |WokenNow(k, e, a)|
  {
    if e.NSys2? || e.Trap? {
      assert JoinsNow(k, e, a) == [] && WokenNow(k, e, a) == [];
    } else {
      NoVictims(k, e, a);
      WithoutNone(Waiters(k.asl, a), {});
      assert Victims(k, e) == {};
    }
  }

  lemma FifoJoin(w: seq<nat>, p: seq<nat>, x: seq<nat>, r: seq<nat>, j: seq<nat>)
    requires Subseq(x + r, (w + p) + j) || (p == [] && Subseq(x + r, w + j))
    ensures Subseq(([] + x) + r, w + (p + j))
  {
    assert ([] + x) + r == x + r;
    assert (w + p) + j == w + (p + j);
    assert w + ([] + j) == w + j;
  }

  lemma FifoWake(w: seq<nat>, x: seq<nat>, r: seq<nat>, j: seq<nat>)
    requires w != [] && Subseq(x + r, w[1..] + j)
    ensures Subseq(([w[0]] + x) + r, w + ([] + j))
  {
    SubseqHead(w[0], x + r, w[1..] + j);
    Reassociate(w[0], x, r);
    Reassociate(w[0], w[1..], j);
    assert w == [w[0]] + w[1..];
    assert [] + j == j;
  }

  lemma Reassociate(z: nat, x: seq<nat>, y: seq<nat>)
    ensures ([z] + x) + y == [z] + (x + y)
  {
  }

  lemma SubseqHead(z: nat, x: seq<nat>, y: seq<nat>)
    requires Subseq(x, y)
    ensures Subseq([z] + x, [z] + y)
  {
    assert ([z] + x)[1..] == x && ([z] + y)[1..] == y;
  }

  lemma {:induction false} SubseqSelf(x: seq<nat>)
    ensures Subseq(x, x)
  {
    if x != [] {
      SubseqSelf(x[1..]);
    }
  }

  /** With nothing left out the order is exact. */
  lemma {:induction false} SubseqLength(x: seq<nat>, y: seq<nat>)
    requires Subseq(x, y)
    ensures |x| <= |y| && (|x| == |y| ==> x == y)
  {
    if x != [] {
      if x[0] == y[0] {
        SubseqLength(x[1..], y[1..]);
        assert x == [x[0]] + x[1..] && y == [y[0]] + y[1..];
      } else {
        SubseqLength(x, y[1..]);
      }
    }
  }

  /** If nobody is terminated while waiting on `a`, processes are woken from it in exactly the
      order in which they blocked. */
  lemma FifoExact(k: Kernel, ms: seq<Moment>, a: int)
    requires Inv(k) && Guarded(k, ms) && a != DevAddr(k.devs, NSUPPSEM) && KilledWaiting(k, ms, a) == 0
    ensures Woken(k, ms, a) + Waiters(Run(k, ms).asl, a) == Waiters(k.asl, a) + Joined(k, ms, a)
  {
    Fifo(k, ms, a);
    SubseqLength(Woken(k, ms, a) + Waiters(Run(k, ms).asl, a), Waiters(k.asl, a) + Joined(k, ms, a));
  }
}
