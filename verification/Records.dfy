/** What every event does to every PCB: who gets an answer and which, who waits where, and what a
    process keeps from its creation to its end. */
module Records {
  import opened Queues
  import opened NucleusSpec
  import opened Invariant
  import opened Handlers
  import opened Subtree
  import opened Runs
  import opened Semaphores
  import opened Timing

  // ---------------------------------------------------------------- reference

  /** The semaphore the caller is queued on, if the event queues it. */
  function WaitsOn(k: Kernel, e: Event): Option<int> {
    match e
    case NSys3(a) => if Val(k, a) > 0 then None else Some(a)
    case NSys5(a1) => Some(k.devs + 4 * SemIndex(a1))
    case NSys7 => Some(k.devs + 192)
    case _ => None
  }

  ghost predicate Nobody(k: Kernel, pid: int) {
    forall q: nat :: Live(k.pcb, k.free, q) ==> k.pcb[q].pid != pid
  }

  /** The process woken by a device interrupt and the status it gets. */
  function Served(k: Kernel, e: Event): Option<(nat, int)> {
    if !e.Dev? then None
    else
      var s := Interrupting(e.line, e.pending, e.recv, e.transm, e.status);
      if s.None? then None
      else
        var w := Waiters(k.asl, k.devs + 4 * s.value.0);
        if w == [] then None else Some((w[0], s.value.1))
  }

  /** The event puts a result in the a0 of `q`: the calls that return one to their caller, an NSYS2
      that finds nobody, a device to the oldest process waiting for it. */
  ghost predicate Addressed(k: Kernel, e: Event, q: nat) {
    || (k.curr == Some(q) && (e.NSys1? || e.NSys6? || e.NSys8? || e.NSys9?))
    || (k.curr == Some(q) && e.NSys2? && e.pid != 0 && Nobody(k, e.pid))
    || (Served(k, e).Some? && Served(k, e).value.0 == q)
  }

  /** `v` is the pid of the process whose child list holds `q`, 0 if no list does. */
  ghost predicate PidAbove(k: Kernel, q: nat, v: int) {
    && (forall f: nat :: Live(k.pcb, k.free, f) && q in k.pcb[f].child ==> v == k.pcb[f].pid)
    && ((forall f: nat :: Live(k.pcb, k.free, f) ==> q !in k.pcb[f].child) ==> v == 0)
  }

  /** `v` is the right result for `q`. */
  ghost predicate Correct(k: Kernel, m: Moment, q: nat, v: int)
    requires q < |k.pcb|
  {
    match m.e
    case NSys1(_, _) => v == if k.free == [] then -1 else k.nextPid
    case NSys2(_) => v == -1
    case NSys6 => v == Reading(k, q, m.t)
    case NSys8 => v == k.pcb[q].support
    case NSys9(parent) => if parent then PidAbove(k, q, v) else v == k.pcb[q].pid
    case Dev(_, _, _, _, _) => Served(k, m.e).Some? && v == Served(k, m.e).value.1
    case _ => true
  }

  /** The PCB `x` of `q` became `y`: who it is, what it was created with and whose child it is stay;
      a caller that is queued remembers where; a creator has one child more, in front; a parent loses
      the children terminated; a0 changes only for those addressed. */
  ghost predicate Recorded(k: Kernel, m: Moment, q: nat, y: Pcb)
    requires Inv(k) && (k.mode == Running || m.e.It? || m.e.Dev?) && q < |k.pcb|
  {
    var x := k.pcb[q];
    && y.pid == x.pid && y.prio == x.prio && y.support == x.support && y.parent == x.parent
    && y.semAdd == (if k.curr == Some(q) && WaitsOn(k, m.e).Some? then WaitsOn(k, m.e).value else x.semAdd)
    && y.child == (if m.e.NSys1? && k.free != [] && k.curr == Some(q) then [k.free[0]] + x.child
                   else Without(x.child, Victims(k, m.e)))
    && (if Addressed(k, m.e, q) then Correct(k, m, q, y.a0) else y.a0 == x.a0)
  }

  // ---------------------------------------------------------------- each handler against it

  /** Nothing but the time charged, and nobody is queued or answered. */
  lemma OnlyTime(k: Kernel, m: Moment, q: nat, y: Pcb)
    requires Inv(k) && (k.mode == Running || m.e.It?) && q < |k.pcb| && y == k.pcb[q].(time := y.time)
    requires m.e.Plt? || m.e.It? || m.e.NSys10? || m.e.NSys4? || (m.e.Trap? && Target(k, m.e).None?)
    ensures Recorded(k, m, q, y)
  {
    WithoutNone(k.pcb[q].child, {});
  }

  lemma BlockRecord(k: Kernel, key: int, t: int, q: nat)
    requires Base(k) && k.curr.Some? && q < |k.pcb|
    ensures Dispatch(Block(k, key), t).pcb[q] ==
            if k.curr == Some(q) then k.pcb[q].(semAdd := key) else k.pcb[q]
  {
    BlockingNeverFails(k, key);
  }

  lemma SoftRecord(k: Kernel, i: int, t: int, t': int, q: nat)
    requires Base(k) && k.curr.Some? && q < |k.pcb|
    ensures var y := SoftWait(k, i, t, t').pcb[q];
            y == if k.curr == Some(q) then k.pcb[q].(time := y.time, semAdd := k.devs + 4 * i) else k.pcb[q]
  {
    ChargeBase(k, t);
    var k1 := Charge(k, t);
    var k2 := k1.(softBlock := k1.softBlock + 1);
    Regroup(k1, k2);
    BlockRecord(k2, DevAddr(k.devs, i), t', q);
  }

  lemma PasserenRecord(k: Kernel, a: int, t: int, t': int, q: nat)
    requires Base(k) && k.curr.Some? && q < |k.pcb|
    ensures var y := Passeren(k, a, t, t').pcb[q];
            y == if k.curr == Some(q) && Val(k, a) <= 0 then k.pcb[q].(time := y.time, semAdd := a) else k.pcb[q]
  {
    if Val(k, a) <= 0 {
      ChargeBase(k, t);
      BlockRecord(Charge(k, t), a, t', q);
    }
  }

  lemma QueuedRecord(k: Kernel, m: Moment, q: nat, y: Pcb)
    requires Inv(k) && k.mode == Running && q < |k.pcb| && (m.e.NSys3? || m.e.NSys5? || m.e.NSys7?)
    requires y == if k.curr == Some(q) && WaitsOn(k, m.e).Some?
                  then k.pcb[q].(time := y.time, semAdd := WaitsOn(k, m.e).value) else k.pcb[q]
    ensures Recorded(k, m, q, y)
  {
    WithoutNone(k.pcb[q].child, {});
  }

  lemma PassRecord(k: Kernel, m: Moment, q: nat)
    requires Inv(k) && k.mode == Running && q < |k.pcb| && m.e.NSys3?
    ensures Recorded(k, m, q, HandleWait(k, m).pcb[q])
  {
    PasserenRecord(k, m.e.a, m.t, m.t', q);
    QueuedRecord(k, m, q, Passeren(k, m.e.a, m.t, m.t').pcb[q]);
  }

  lemma GiveUpRecord(k: Kernel, m: Moment, q: nat)
    requires Inv(k) && k.mode == Running && q < |k.pcb| && m.e.NSys10?
    ensures Recorded(k, m, q, HandleWait(k, m).pcb[q])
  {
    YieldRecord(k, m.t, m.t', q);
    OnlyTime(k, m, q, Yield(k, m.t, m.t').pcb[q]);
  }

  lemma SoftCallRecord(k: Kernel, m: Moment, q: nat)
    requires Inv(k) && k.mode == Running && q < |k.pcb| && (m.e.NSys5? || m.e.NSys7?)
    ensures Recorded(k, m, q, HandleWait(k, m).pcb[q])
  {
    var i := if m.e.NSys5? then SemIndex(m.e.a1) else 48;
    SoftRecord(k, i, m.t, m.t', q);
    QueuedRecord(k, m, q, SoftWait(k, i, m.t, m.t').pcb[q]);
  }

  lemma WaitRecord(k: Kernel, m: Moment, q: nat)
    requires Inv(k) && k.mode == Running && q < |k.pcb|
    requires m.e.NSys3? || m.e.NSys5? || m.e.NSys7? || m.e.NSys10?
    ensures Recorded(k, m, q, HandleWait(k, m).pcb[q])
  {
    if m.e.NSys3? {
      PassRecord(k, m, q);
    } else if m.e.NSys10? {
      GiveUpRecord(k, m, q);
    } else {
      SoftCallRecord(k, m, q);
    }
  }

  lemma YieldRecord(k: Kernel, t: int, t': int, q: nat)
    requires Wf(k) && k.curr.Some? && q < |k.pcb|
    ensures Yield(k, t, t').pcb[q] == k.pcb[q].(time := Yield(k, t, t').pcb[q].time)
    ensures LocalTimer(k, t, t').pcb[q] == k.pcb[q].(time := LocalTimer(k, t, t').pcb[q].time)
  {
  }

  /** The parent is the one process whose child list holds `q`. */
  lemma ParentAbove(k: Kernel, q: nat)
    requires Base(k) && Live(k.pcb, k.free, q)
    ensures PidAbove(k, q, ParentPid(k, q))
  {
    assert NodeOk(k.pcb, k.free, q);
    forall f: nat | Live(k.pcb, k.free, f) && q in k.pcb[f].child
      ensures k.pcb[q].parent == Some(f)
    {
      assert NodeOk(k.pcb, k.free, f);
    }
  }

  lemma ReadRecord(k: Kernel, m: Moment, q: nat)
    requires Inv(k) && k.mode == Running && Live(k.pcb, k.free, q) && (m.e.NSys6? || m.e.NSys8? || m.e.NSys9?)
    ensures Recorded(k, m, q, HandleRead(k, m).pcb[q])
  {
    WithoutNone(k.pcb[q].child, {});
    if k.curr == Some(q) {
      ParentAbove(k, q);
    }
  }

  lemma SignalRecord(k: Kernel, i: int, status: int, q: nat)
    requires Base(k) && q < |k.pcb|
    ensures var w := Waiters(k.asl, k.devs + 4 * i);
            Signal(k, i, status).pcb[q] == if w != [] && w[0] == q then k.pcb[q].(a0 := status) else k.pcb[q]
  {
    if Waiters(k.asl, DevAddr(k.devs, i)) != [] {
      WakeBase(k, DevAddr(k.devs, i));
    }
  }

  lemma DeviceRecord(k: Kernel, m: Moment, q: nat)
    requires Base(k) && m.e.Dev? && q < |k.pcb|
    ensures Device(k, m.e.line, m.e.pending, m.e.recv, m.e.transm, m.e.status, m.t').pcb[q] ==
            if Served(k, m.e).Some? && Served(k, m.e).value.0 == q
            then k.pcb[q].(a0 := Served(k, m.e).value.1) else k.pcb[q]
  {
    var s := Interrupting(m.e.line, m.e.pending, m.e.recv, m.e.transm, m.e.status);
    if s.Some? {
      SignalRecord(k, s.value.0, s.value.1, q);
      ResumePcb(Signal(k, s.value.0, s.value.1), m.t');
    } else {
      ResumePcb(k, m.t');
    }
  }

  lemma ResumePcb(k: Kernel, t: int)
    ensures Resume(k, t).pcb == k.pcb
  {
  }

  lemma TimerRecord(k: Kernel, m: Moment, q: nat)
    requires Inv(k) && q < |k.pcb| && m.e.Plt? && k.mode == Running
    ensures Recorded(k, m, q, HandleInterrupt(k, m).pcb[q])
  {
    YieldRecord(k, m.t, m.t', q);
    OnlyTime(k, m, q, LocalTimer(k, m.t, m.t').pcb[q]);
  }

  lemma TickRecord(k: Kernel, m: Moment, q: nat)
    requires Inv(k) && q < |k.pcb| && m.e.It?
    ensures Recorded(k, m, q, HandleInterrupt(k, m).pcb[q])
  {
    TickPcb(k, m.t');
    OnlyTime(k, m, q, k.pcb[q]);
    assert HandleInterrupt(k, m) == Tick(k, m.t');
  }

  lemma TickPcb(k: Kernel, t: int)
    requires Base(k) && SoftOk(k)
    ensures Tick(k, t).pcb == k.pcb
  {
    DrainFrame(k);
  }

  lemma DevRecord(k: Kernel, m: Moment, q: nat)
    requires Inv(k) && q < |k.pcb| && m.e.Dev?
    ensures Recorded(k, m, q, HandleInterrupt(k, m).pcb[q])
  {
    DeviceRecord(k, m, q);
    ServedRecord(k, m, q, Device(k, m.e.line, m.e.pending, m.e.recv, m.e.transm, m.e.status, m.t').pcb[q]);
  }

  lemma InterruptRecord(k: Kernel, m: Moment, q: nat)
    requires Inv(k) && Enabled(k, m) && q < |k.pcb| && (m.e.Plt? || m.e.It? || m.e.Dev?)
    ensures Recorded(k, m, q, HandleInterrupt(k, m).pcb[q])
  {
    if m.e.Plt? {
      TimerRecord(k, m, q);
    } else if m.e.It? {
      TickRecord(k, m, q);
    } else {
      DevRecord(k, m, q);
    }
  }

  lemma ServedRecord(k: Kernel, m: Moment, q: nat, y: Pcb)
    requires Inv(k) && m.e.Dev? && q < |k.pcb|
    requires y == if Served(k, m.e).Some? && Served(k, m.e).value.0 == q
                  then k.pcb[q].(a0 := Served(k, m.e).value.1) else k.pcb[q]
    ensures Recorded(k, m, q, y)
  {
    WithoutNone(k.pcb[q].child, {});
  }

  lemma CreateRecord(k: Kernel, m: Moment, q: nat)
    requires Inv(k) && k.mode == Running && Live(k.pcb, k.free, q) && m.e.NSys1?
    ensures Recorded(k, m, q, HandleProcess(k, m).pcb[q])
  {
    WithoutNone(k.pcb[q].child, {});
    assert k.free != [] ==> k.free[0] in k.free;
  }

  lemma KillRecord(k: Kernel, m: Moment, q: nat)
    requires Inv(k) && k.mode == Running && Live(k.pcb, k.free, q) && q !in Victims(k, m.e)
    requires (m.e.NSys2? || m.e.Trap?) && Target(k, m.e).Some?
    ensures Recorded(k, m, q, HandleProcess(k, m).pcb[q])
  {
    KillPcb(k, m);
    ErasedRecord(k, m, q, HandleProcess(k, m).pcb);
  }

  lemma KillPcb(k: Kernel, m: Moment)
    requires Inv(k) && k.mode == Running && (m.e.NSys2? || m.e.Trap?) && Target(k, m.e).Some?
    ensures ErasedTree(k.pcb, HandleProcess(k, m).pcb, k.free, Victims(k, m.e))
  {
    KillHandled(k, m);
    KillTree(k, Target(k, m.e).value);
  }

  /** What the handler leaves in the tables is what terminateProcess does. */
  lemma KillHandled(k: Kernel, m: Moment)
    requires Inv(k) && k.mode == Running && (m.e.NSys2? || m.e.Trap?) && Target(k, m.e).Some?
    ensures var p := Target(k, m.e).value;
            && Live(k.pcb, k.free, p)
            && HandleProcess(k, m).pcb == TerminateProcess(k, p).pcb
            && HandleProcess(k, m).free == TerminateProcess(k, p).free
            && HandleProcess(k, m).nextPid == TerminateProcess(k, p).nextPid
  {
    TargetLive(k, m.e);
    KillStep(k, m);
    DispatchTables(TerminateProcess(k, Target(k, m.e).value), m.t');
  }

  lemma DispatchTables(k: Kernel, t: int)
    ensures var k' := Dispatch(k, t); k'.pcb == k.pcb && k'.free == k.free && k'.nextPid == k.nextPid
  {
  }

  lemma TargetLive(k: Kernel, e: Event)
    requires Inv(k) && (k.mode == Running || e.It? || e.Dev?) && Target(k, e).Some?
    ensures Live(k.pcb, k.free, Target(k, e).value)
  {
    if k.curr.Some? {
      PlaceOf(k, k.curr.value);
    }
  }

  lemma ErasedRecord(k: Kernel, m: Moment, q: nat, pcb: seq<Pcb>)
    requires Inv(k) && k.mode == Running && Live(k.pcb, k.free, q) && q !in Victims(k, m.e)
    requires (m.e.NSys2? || m.e.Trap?) && Target(k, m.e).Some? && ErasedTree(k.pcb, pcb, k.free, Victims(k, m.e))
    ensures Recorded(k, m, q, pcb[q])
  {
    assert !Addressed(k, m.e, q);
  }

  /** NSYS2 on a pid that no live process has puts -1 in the caller's a0 and does nothing else; a pid
      that one has, and 0, single out the process it terminates. */
  lemma UnknownPid(k: Kernel, m: Moment)
    requires Inv(k) && Enabled(k, m) && m.e.NSys2?
    ensures Target(k, m.e).None? <==> m.e.pid != 0 && Nobody(k, m.e.pid)
    ensures Target(k, m.e).Some? ==>
              var p := Target(k, m.e).value;
              Live(k.pcb, k.free, p) && if m.e.pid == 0 then k.curr == Some(p) else k.pcb[p].pid == m.e.pid
    ensures m.e.pid != 0 && Nobody(k, m.e.pid) ==>
              var c := k.curr.value;
              c < |k.pcb| && Step(k, m) == k.(pcb := k.pcb[c := k.pcb[c].(a0 := -1)], clock := m.t')
  {
    PlaceOf(k, k.curr.value);
  }

  /** A trap is passed up, and nothing else happens, if the process has a support structure; without
      one it is the root of the subtree that dies. */
  lemma PassedUp(k: Kernel, m: Moment)
    requires Inv(k) && Enabled(k, m) && m.e.Trap?
    ensures k.pcb[k.curr.value].support != 0 ==> Step(k, m) == k.(clock := m.t') && Victims(k, m.e) == {}
    ensures k.pcb[k.curr.value].support == 0 ==> Target(k, m.e) == k.curr && k.curr.value in Victims(k, m.e)
  {
    PlaceOf(k, k.curr.value);
    assert Desc(k.pcb, k.curr.value, k.curr.value);
  }

  lemma ProcessRecord(k: Kernel, m: Moment, q: nat)
    requires Inv(k) && Enabled(k, m) && k.mode == Running && Live(k.pcb, k.free, q) && q !in Victims(k, m.e)
    requires m.e.NSys1? || m.e.NSys2? || m.e.NSys4? || m.e.Trap?
    ensures Recorded(k, m, q, HandleProcess(k, m).pcb[q])
  {
    if m.e.NSys1? {
      CreateRecord(k, m, q);
    } else if m.e.NSys4? {
      SignalledRecord(k, m, q);
    } else if Target(k, m.e).Some? {
      KillRecord(k, m, q);
    } else {
      SparedRecord(k, m, q);
    }
  }

  lemma SignalledRecord(k: Kernel, m: Moment, q: nat)
    requires Inv(k) && k.mode == Running && q < |k.pcb| && m.e.NSys4?
    ensures Recorded(k, m, q, HandleProcess(k, m).pcb[q])
  {
    assert HandleProcess(k, m).pcb == k.pcb;
    OnlyTime(k, m, q, k.pcb[q]);
  }

  lemma SparedRecord(k: Kernel, m: Moment, q: nat)
    requires Inv(k) && Enabled(k, m) && k.mode == Running && Live(k.pcb, k.free, q)
    requires (m.e.NSys2? || m.e.Trap?) && Target(k, m.e).None?
    ensures Recorded(k, m, q, HandleProcess(k, m).pcb[q])
  {
    if m.e.NSys2? {
      UnknownRecord(k, m, q);
    } else {
      OnlyTime(k, m, q, k.pcb[q]);
    }
  }

  lemma UnknownRecord(k: Kernel, m: Moment, q: nat)
    requires Inv(k) && Enabled(k, m) && k.mode == Running && q < |k.pcb| && m.e.NSys2? && Target(k, m.e).None?
    ensures Recorded(k, m, q, HandleProcess(k, m).pcb[q])
  {
    UnknownPid(k, m);
    WithoutNone(k.pcb[q].child, {});
  }

  /** The frame of every event: for each live process it does not terminate, exactly what Recorded
      says. */
  lemma RecordStep(k: Kernel, m: Moment, q: nat)
    requires Inv(k) && Enabled(k, m) && Live(k.pcb, k.free, q) && q !in Victims(k, m.e)
    ensures Recorded(k, m, q, Step(k, m).pcb[q])
  {
    if m.e.Plt? || m.e.It? || m.e.Dev? {
      InterruptRecord(k, m, q);
    } else if m.e.NSys6? || m.e.NSys8? || m.e.NSys9? {
      ReadRecord(k, m, q);
    } else if m.e.NSys1? || m.e.NSys2? || m.e.NSys4? || m.e.Trap? {
      ProcessRecord(k, m, q);
    } else {
      WaitRecord(k, m, q);
    }
  }
}
