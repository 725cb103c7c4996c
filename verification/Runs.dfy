/** The nucleus as a state machine: one step is one exception, from its handler to the end of
    dispatch. Every run from boot keeps the invariant, and a step breaks it exactly when its
    guard fails. */
module Runs {
  import opened Queues
  import opened NucleusSpec
  import opened Invariant
  import opened Handlers
  import opened Subtree
  import opened Termination

  /** The exceptions the nucleus handles: its system calls, traps passed up or died of, the
      processor local timer, the interval timer and the devices. */
  datatype Event =
    | NSys1(prio: int, support: int) | NSys2(pid: int) | NSys3(a: int) | NSys4(a: int) | NSys5(a1: int)
    | NSys6 | NSys7 | NSys8 | NSys9(parent: bool) | NSys10
    | Trap | Plt | It
    | Dev(line: int, pending: set<nat>, recv: int, transm: int, status: int)

  /** An event with the two clock readings of its handler: the one a slice is charged by and
      the one dispatch starts the next slice with. */
  datatype Moment = Moment(e: Event, t: int, t': int)

  /** The number of a system call in headers/const.h, 0 for the events that are none. */
  function CallNumber(e: Event): int {
    match e
    case NSys1(_, _) => -1
    case NSys2(_) => -2
    case NSys3(_) => -3
    case NSys4(_) => -4
    case NSys5(_) => -5
    case NSys6 => -6
    case NSys7 => -7
    case NSys8 => -8
    case NSys9(_) => -9
    case NSys10 => -10
    case _ => 0
  }

  /** syscallHandler's choice: a negative number from user mode, and any unknown one, traps; from
      kernel mode each number selects its own call, with its arguments from a1 on. */
  function SyscallEvent(user: bool, a0: int, a1: int, a2: int, a3: int): (e: Event)
    ensures e == Trap <==> (a0 < 0 && user) || a0 < -10 || a0 >= 0
    ensures e != Trap ==> CallNumber(e) == a0
    ensures e.NSys1? ==> e.prio == a2 && e.support == a3
    ensures e.NSys2? ==> e.pid == a1
    ensures e.NSys3? || e.NSys4? ==> e.a == a1
    ensures e.NSys5? ==> e.a1 == a1
    ensures e.NSys9? ==> e.parent == (a1 != 0)
  {
    if a0 < 0 && user then Trap
    else if a0 == -1 then NSys1(a2, a3)
    else if a0 == -2 then NSys2(a1)
    else if a0 == -3 then NSys3(a1)
    else if a0 == -4 then NSys4(a1)
    else if a0 == -5 then NSys5(a1)
    else if a0 == -6 then NSys6
    else if a0 == -7 then NSys7
    else if a0 == -8 then NSys8
    else if a0 == -9 then NSys9(a1 != 0)
    else if a0 == -10 then NSys10
    else Trap
  }

  /** Interrupts arrive while a process runs or dispatch waits, all but the local timer's,
      which dispatch masks; the rest needs a running process. */
  predicate Enabled(k: Kernel, m: Moment) {
    && k.clock <= m.t <= m.t'
    && (k.mode == Running || (k.mode == Waiting && (m.e.It? || m.e.Dev?)))
    && (m.e.Dev? ==> 3 <= m.e.line <= 7)
  }

  function ParentPid(k: Kernel, c: nat): int
    requires Wf(k) && c < |k.pcb|
  {
    if k.pcb[c].parent.None? then 0 else k.pcb[k.pcb[c].parent.value].pid
  }

  /** The calls that may give up the processor. */
  function HandleWait(k: Kernel, m: Moment): (r: Kernel)
    requires Wf(k) && k.curr.Some? && (m.e.NSys3? || m.e.NSys5? || m.e.NSys7? || m.e.NSys10?)
    ensures SameShape(k, r)
  {
    match m.e
    case NSys3(a) => Passeren(k, a, m.t, m.t')
    case NSys5(a1) => DoIO(k, a1, m.t, m.t')
    case NSys7 => WaitClock(k, m.t, m.t')
    case NSys10 => Yield(k, m.t, m.t')
  }

  /** The calls that only put a value in the caller's a0. */
  function HandleRead(k: Kernel, m: Moment): (r: Kernel)
    requires Wf(k) && k.curr.Some? && (m.e.NSys6? || m.e.NSys8? || m.e.NSys9?)
    ensures SameShape(k, r)
  {
    match m.e
    case NSys6 => GetTime(k, m.t)
    case NSys8 => Reply(k, k.curr.value, k.pcb[k.curr.value].support)
    case NSys9(parent) =>
      Reply(k, k.curr.value, if parent then ParentPid(k, k.curr.value) else k.pcb[k.curr.value].pid)
  }

  /** Creation, termination, V and traps. */
  function HandleProcess(k: Kernel, m: Moment): (r: Kernel)
    requires Wf(k) && k.curr.Some? && (m.e.NSys1? || m.e.NSys2? || m.e.NSys4? || m.e.Trap?)
    ensures SameShape(k, r)
  {
    match m.e
    case NSys1(prio, support) => Create(k, prio, support)
    case NSys2(pid) => Terminate(k, pid, m.t')
    case NSys4(a) => Verhogen(k, a)
    case Trap => PassUpOrDie(k, m.t')
  }

  function HandleInterrupt(k: Kernel, m: Moment): (r: Kernel)
    requires Wf(k) && (m.e.Plt? || m.e.It? || m.e.Dev?) && (m.e.Plt? ==> k.curr.Some?)
    ensures SameShape(k, r)
  {
    match m.e
    case Plt => LocalTimer(k, m.t, m.t')
    case It => Tick(k, m.t')
    case Dev(line, pending, recv, transm, status) => Device(k, line, pending, recv, transm, status, m.t')
  }

  function Handle(k: Kernel, m: Moment): (r: Kernel)
    requires Wf(k) && Enabled(k, m) && (k.mode == Running ==> k.curr.Some?)
    ensures SameShape(k, r)
  {
    if m.e.Plt? || m.e.It? || m.e.Dev? then HandleInterrupt(k, m)
    else if m.e.NSys6? || m.e.NSys8? || m.e.NSys9? then HandleRead(k, m)
    else if m.e.NSys1? || m.e.NSys2? || m.e.NSys4? || m.e.Trap? then HandleProcess(k, m)
    else HandleWait(k, m)
  }

  function Step(k: Kernel, m: Moment): (r: Kernel)
    requires Wf(k) && Enabled(k, m) && (k.mode == Running ==> k.curr.Some?)
    ensures SameShape(k, r)
  {
    Handle(k, m).(clock := m.t')
  }

  /** Killing the subtree of `p` is sound: the caller is in it, and no ready member of it
      still carries the address of a semaphore it was woken from. */
  ghost predicate KillOk(k: Kernel, p: nat)
    requires Base(k) && k.curr.Some?
  {
    var d := Descendants(k.pcb, k.free, p);
    k.curr.value in d && ReadyClean(k, d)
  }

  /** What a caller can check before each call. */
  ghost predicate Guard(k: Kernel, e: Event)
    requires Inv(k) && (k.mode == Running || e.It? || e.Dev?)
  {
    match e
    case NSys2(pid) =>
      if pid == 0 then KillOk(k, k.curr.value)
      else var p := FindByPid(k, pid); p.None? || KillOk(k, p.value)
    case NSys3(a) => Val(k, a) > 0 || (a != NULL && !IsDevice(k.devs, a))
    case NSys4(a) => Waiters(k.asl, a) == [] || !IsDevice(k.devs, a)
    case NSys5(a1) => 0 <= SemIndex(a1) < NRSEMAPHORES
    case Trap => k.pcb[k.curr.value].support != NULL || KillOk(k, k.curr.value)
    case _ => true
  }

  lemma ClockFrame(k: Kernel, t: int)
    ensures Inv(k.(clock := t)) <==> Inv(k)
  {
    var k' := k.(clock := t);
    if Base(k) {
      Regroup(k, k');
    }
    if Base(k') {
      Regroup(k', k);
    }
  }

  /** One step of the nucleus, from any state that satisfies the invariant, satisfies it again
      if and only if the guard of its event holds. */
  lemma StepInv(k: Kernel, m: Moment)
    requires Inv(k) && Enabled(k, m)
    ensures Inv(Step(k, m)) <==> Guard(k, m.e)
  {
    HandleInv(k, m);
    ClockFrame(Handle(k, m), m.t');
  }

  lemma HandleInv(k: Kernel, m: Moment)
    requires Inv(k) && Enabled(k, m)
    ensures Inv(Handle(k, m)) <==> Guard(k, m.e)
  {
    if m.e.Plt? || m.e.It? || m.e.Dev? {
      InterruptInv(k, m);
    } else if m.e.NSys6? || m.e.NSys8? || m.e.NSys9? {
      ReadInv(k, m);
    } else if m.e.NSys1? || m.e.NSys2? || m.e.NSys4? || m.e.Trap? {
      ProcessInv(k, m);
    } else {
      WaitInv(k, m);
    }
  }

  lemma WaitInv(k: Kernel, m: Moment)
    requires Inv(k) && k.mode == Running && (m.e.NSys3? || m.e.NSys5? || m.e.NSys7? || m.e.NSys10?)
    ensures Inv(HandleWait(k, m)) <==> Guard(k, m.e)
  {
    if m.e.NSys5? || m.e.NSys7? {
      SoftCallInv(k, m);
    } else if m.e.NSys3? {
      PasserenInv(k, m.e.a, m.t, m.t');
    } else {
      YieldInv(k, m.t, m.t');
    }
  }

  lemma SoftCallInv(k: Kernel, m: Moment)
    requires Inv(k) && k.mode == Running && (m.e.NSys5? || m.e.NSys7?)
    ensures Inv(HandleWait(k, m)) <==> Guard(k, m.e)
  {
    SoftWaitInv(k, if m.e.NSys5? then SemIndex(m.e.a1) else NSUPPSEM, m.t, m.t');
  }

  lemma ReadInv(k: Kernel, m: Moment)
    requires Inv(k) && k.mode == Running && (m.e.NSys6? || m.e.NSys8? || m.e.NSys9?)
    ensures Inv(HandleRead(k, m))
  {
    var c := k.curr.value;
    match m.e
    case NSys6 => ReplyInv(k, k.pcb[c].time + (m.t - k.todStart));
    case NSys8 => ReplyInv(k, k.pcb[c].support);
    case NSys9(parent) => ReplyInv(k, if parent then ParentPid(k, c) else k.pcb[c].pid);
  }

  lemma ProcessInv(k: Kernel, m: Moment)
    requires Inv(k) && k.mode == Running && (m.e.NSys1? || m.e.NSys2? || m.e.NSys4? || m.e.Trap?)
    ensures Inv(HandleProcess(k, m)) <==> Guard(k, m.e)
  {
    match m.e
    case NSys1(prio, support) => CreateInv(k, prio, support);
    case NSys2(pid) => NSys2Inv(k, pid, m.t');
    case NSys4(a) => VerhogenInv(k, a);
    case Trap => NSys2Inv(k, 0, m.t');
  }

  lemma InterruptInv(k: Kernel, m: Moment)
    requires Inv(k) && Enabled(k, m) && (m.e.Plt? || m.e.It? || m.e.Dev?)
    ensures Inv(HandleInterrupt(k, m))
  {
    match m.e
    case Plt => LocalTimerInv(k, m.t, m.t');
    case It => TickInv(k, m.t');
    case Dev(line, pending, recv, transm, status) => DeviceInv(k, line, pending, recv, transm, status, m.t');
  }

  lemma ReplyInv(k: Kernel, v: int)
    requires Inv(k) && k.curr.Some?
    ensures Inv(Reply(k, k.curr.value, v))
  {
    ReplyBase(k, k.curr.value, v);
  }

  lemma NSys2Inv(k: Kernel, pid: int, t: int)
    requires Inv(k) && k.mode == Running
    ensures Inv(Terminate(k, pid, t)) <==> Guard(k, NSys2(pid))
  {
    if pid == 0 {
      PlaceOf(k, k.curr.value);
      TerminateInv(k, k.curr.value, t);
    } else {
      var p := FindByPid(k, pid);
      if p.Some? {
        TerminateInv(k, p.value, t);
      } else {
        ReplyInv(k, NOPROC);
      }
    }
  }

  // ---------------------------------------------------------------- runs

  /** Every event of the run is possible and meets its guard when it happens. */
  ghost predicate Guarded(k: Kernel, ms: seq<Moment>)
    requires Inv(k)
    decreases |ms|
  {
    ms == [] || (Enabled(k, ms[0]) && Guard(k, ms[0].e) && (StepInv(k, ms[0]); Guarded(Step(k, ms[0]), ms[1..])))
  }

  ghost function Run(k: Kernel, ms: seq<Moment>): (r: Kernel)
    requires Inv(k) && Guarded(k, ms)
    ensures Inv(r) && SameShape(k, r)
    decreases |ms|
  {
    if ms == [] then k
    else
      StepInv(k, ms[0]);
      Run(Step(k, ms[0]), ms[1..])
  }

  lemma RunCons(k: Kernel, m: Moment, ms: seq<Moment>)
    requires Inv(k) && Enabled(k, m) && Guard(k, m.e) && Inv(Step(k, m)) && Guarded(Step(k, m), ms)
    ensures Guarded(k, [m] + ms) && Run(k, [m] + ms) == Run(Step(k, m), ms)
  {
    assert ([m] + ms)[1..] == ms;
  }

  lemma RunTail(k: Kernel, ms: seq<Moment>)
    requires Inv(k) && Guarded(k, ms) && ms != []
    ensures Enabled(k, ms[0]) && Guard(k, ms[0].e) && Inv(Step(k, ms[0])) && Guarded(Step(k, ms[0]), ms[1..])
    ensures Run(k, ms) == Run(Step(k, ms[0]), ms[1..])
  {
    StepInv(k, ms[0]);
  }

  // ---------------------------------------------------------------- boot

  function Down(n: nat): seq<nat> { if n == 0 then [] else [n - 1] + Down(n - 1) }

  const BLANK_PCB := Pcb(None, [], NULL, 0, 0, 0, 0, NULL)

  /** main: the pool filled, the first process allocated, queued and dispatched. */
  function Boot(devs: int, maxproc: nat, sem: map<int, int>, t: int): Kernel
    requires maxproc > 0
  {
    var first := maxproc - 1;
    var pcb := seq(maxproc, _ => BLANK_PCB)[first := BLANK_PCB.(pid := 1)];
    Dispatch(Kernel(devs, pcb, Down(first), 2, [first], [], maxproc, None, 1, 0, sem, 0, t, Waiting), t)
  }

  lemma {:induction false} DownCount(n: nat, q: nat)
    ensures |Down(n)| == n
    ensures multiset(Down(n))[q] == if q < n then 1 else 0
    ensures q in Down(n) <==> q < n
  {
    if n > 0 {
      DownCount(n - 1, q);
    }
  }

  lemma BootInv(devs: int, maxproc: nat, sem: map<int, int>, t: int)
    requires maxproc > 0 && devs > 0
    ensures Inv(Boot(devs, maxproc, sem, t))
  {
    var k := Boot(devs, maxproc, sem, t);
    BootParts(devs, maxproc, sem, t);
    assert Prios(k.pcb, k.ready) == [];
  }

  lemma BootParts(devs: int, maxproc: nat, sem: map<int, int>, t: int)
    requires maxproc > 0
    ensures var k := Boot(devs, maxproc, sem, t);
            && k.ready == [] && |k.free| == maxproc - 1 && Partition(k) && Wf(k)
            && (forall q: nat :: Live(k.pcb, k.free, q) <==> q == maxproc - 1)
  {
    var k := Boot(devs, maxproc, sem, t);
    assert k.ready == [];
    assert TreeWf(k.pcb);
    BootPlaces(k, maxproc - 1);
  }

  lemma BootPlaces(k: Kernel, first: nat)
    requires k.free == Down(first) && k.ready == [] && k.asl == [] && k.curr == Some(first) && |k.pcb| == first + 1
    ensures Partition(k) && |k.free| == first && InRange(k.free, |k.pcb|)
    ensures forall q: nat :: Live(k.pcb, k.free, q) <==> q == first
  {
    DownCount(first, 0);
    forall q: nat
      ensures Everybody(k)[q] == if q < |k.pcb| then 1 else 0
      ensures q in k.free <==> q < first
    {
      BootPlace(k, first, q);
    }
  }

  lemma BootPlace(k: Kernel, first: nat, q: nat)
    requires k.free == Down(first) && k.ready == [] && k.asl == [] && k.curr == Some(first)
    ensures Everybody(k)[q] == if q <= first then 1 else 0
    ensures q in k.free <==> q < first
  {
    DownCount(first, q);
    assert multiset(k.ready)[q] == 0 && Blocked(k.asl)[q] == 0;
    assert OnCpu(k.curr)[q] == if q == first then 1 else 0;
  }

  /** What main leaves: the pool less one PCB, the memory and the device semaphores where they were,
      and the first process running, with pid 1 and everything else 0. */
  lemma BootState(devs: int, maxproc: nat, sem: map<int, int>, t: int)
    requires maxproc > 0
    ensures var k := Boot(devs, maxproc, sem, t);
            && k.devs == devs && |k.pcb| == maxproc && |k.free| == maxproc - 1
            && k.mode == Running && k.curr.Some? && Live(k.pcb, k.free, k.curr.value)
            && k.pcb[k.curr.value] == Pcb(None, [], 0, 0, 1, 0, 0, 0)
            && k.todStart == t && k.clock == t
            && (forall q: nat :: Live(k.pcb, k.free, q) ==> k.curr == Some(q))
            && (forall a :: Val(k, a) == if a in sem then sem[a] else 0)
  {
    BootParts(devs, maxproc, sem, t);
  }

  /** The central safety result: whatever happens after boot, as long as each event meets its
      guard, every PCB is in one place, the counters are exact, the tree is sound, the queues
      are ordered and the semaphore law holds. */
  lemma BootRun(devs: int, maxproc: nat, sem: map<int, int>, t: int, ms: seq<Moment>)
    requires maxproc > 0 && devs > 0
    ensures Inv(Boot(devs, maxproc, sem, t))
    ensures Guarded(Boot(devs, maxproc, sem, t), ms) ==> Inv(Run(Boot(devs, maxproc, sem, t), ms))
  {
    BootInv(devs, maxproc, sem, t);
  }

  // ---------------------------------------------------------------- what follows

  /** What the nucleus responds to, from every state of the invariant: with a process running, every
      system call, trap and interrupt at any later time; waiting, the interval timer and the devices;
      halted or panicked, nothing. */
  lemma Responds(k: Kernel, e: Event, t: int, t': int)
    requires Inv(k) && k.clock <= t <= t' && (e.Dev? ==> 3 <= e.line <= 7)
    ensures Enabled(k, Moment(e, t, t')) <==>
              k.curr.Some? || (k.mode == Waiting && (e.It? || e.Dev?))
  {
  }

  /** dispatch's verdicts: it halts exactly when nobody is live, waits exactly when nobody can
      run but somebody awaits a device or the tick, and panics exactly when somebody is live and
      all the live are blocked on other semaphores. */
  lemma Verdicts(k: Kernel)
    requires Inv(k)
    ensures k.mode == Halted <==> forall q: nat :: !Live(k.pcb, k.free, q)
    ensures k.mode == Waiting <==>
              && (forall q: nat :: Live(k.pcb, k.free, q) ==> q in Blocked(k.asl))
              && (exists q: nat :: q in DevWaiters(k.devs, k.asl))
    ensures k.mode == Panicked <==>
              && (exists q: nat :: Live(k.pcb, k.free, q))
              && (forall q: nat :: Live(k.pcb, k.free, q) ==>
                    q in Blocked(k.asl) && !IsDevice(k.devs, k.pcb[q].semAdd))
    ensures k.mode == Running <==> k.curr.Some?
  {
    CountLive(k);
    SoftSign(k);
    Idle(k);
    PanicVerdict(k);
    assert (exists q: nat :: q in DevWaiters(k.devs, k.asl)) ==> k.processCount != 0 by { LiveCases(k); }
  }

  lemma PanicVerdict(k: Kernel)
    requires Inv(k)
    ensures k.mode == Panicked <==>
              && (exists q: nat :: Live(k.pcb, k.free, q))
              && (forall q: nat :: Live(k.pcb, k.free, q) ==>
                    q in Blocked(k.asl) && !IsDevice(k.devs, k.pcb[q].semAdd))
  {
    CountLive(k);
    SoftSign(k);
    Idle(k);
    LiveCases(k);
  }

  /** Nobody can run exactly when everybody live is blocked. */
  lemma Idle(k: Kernel)
    requires Inv(k)
    ensures k.ready == [] && k.curr.None? <==>
              forall q: nat :: Live(k.pcb, k.free, q) ==> q in Blocked(k.asl)
    ensures k.mode == Running <==> k.curr.Some?
  {
    LiveCases(k);
    if k.curr.Some? {
      PlaceOf(k, k.curr.value);
    }
  }

  lemma LiveCases(k: Kernel)
    requires Inv(k)
    ensures forall q: nat :: Live(k.pcb, k.free, q) <==> q in k.ready || q in Blocked(k.asl) || k.curr == Some(q)
    ensures forall q: nat :: q in DevWaiters(k.devs, k.asl) <==>
              Live(k.pcb, k.free, q) && q in Blocked(k.asl) && IsDevice(k.devs, k.pcb[q].semAdd)
  {
    forall q: nat
      ensures Live(k.pcb, k.free, q) <==> q in k.ready || q in Blocked(k.asl) || k.curr == Some(q)
      ensures q in DevWaiters(k.devs, k.asl) <==>
                Live(k.pcb, k.free, q) && q in Blocked(k.asl) && IsDevice(k.devs, k.pcb[q].semAdd)
    {
      PlaceOf(k, q);
      DevBlocked(k.devs, k.asl, q);
      if q < |k.pcb| {
        BlockedDev(k.devs, k.asl, k.pcb, q);
      }
    }
  }

  lemma SoftSign(k: Kernel)
    requires SoftOk(k)
    ensures k.softBlock > 0 <==> exists q: nat :: q in DevWaiters(k.devs, k.asl)
  {
    if k.softBlock > 0 {
      assert DevWaiters(k.devs, k.asl) != multiset{};
    }
  }

  lemma {:induction false} DevBlocked(devs: int, asl: seq<Semd>, q: nat)
    ensures DevWaiters(devs, asl)[q] <= Blocked(asl)[q]
  {
    if asl != [] {
      DevBlocked(devs, asl[1..], q);
    }
  }
}
