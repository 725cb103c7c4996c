/** Processor time: what is charged, who runs next. */
module Timing {
  import opened Queues
  import opened NucleusSpec
  import opened Invariant
  import opened Handlers
  import opened Subtree
  import opened Termination
  import opened Runs
  import opened Semaphores

  // ---------------------------------------------------------------- the total charged

  function Total(pcb: seq<Pcb>): int {
    if pcb == [] then 0 else pcb[0].time + Total(pcb[1..])
  }

  lemma {:induction false} TotalUpdate(pcb: seq<Pcb>, q: nat, c: Pcb)
    requires q < |pcb|
    ensures Total(pcb[q := c]) == Total(pcb) - pcb[q].time + c.time
  {
    if q == 0 {
      assert pcb[q := c][1..] == pcb[1..];
    } else {
      assert pcb[q := c][1..] == pcb[1..][q - 1 := c];
      TotalUpdate(pcb[1..], q - 1, c);
    }
  }

  lemma {:induction false} TotalSame(pcb: seq<Pcb>, pcb': seq<Pcb>)
    requires |pcb'| == |pcb| && forall q :: 0 <= q < |pcb| ==> pcb'[q].time == pcb[q].time
    ensures Total(pcb') == Total(pcb)
  {
    if pcb != [] {
      TotalSame(pcb[1..], pcb'[1..]);
    }
  }

  ghost predicate NoNegative(pcb: seq<Pcb>) { forall q :: 0 <= q < |pcb| ==> pcb[q].time >= 0 }

  /** Slices charged so far are disjoint and lie between the origin `o` and the current slice,
      or now. */
  ghost predicate TimeOk(k: Kernel, o: int) {
    && NoNegative(k.pcb) && k.todStart <= k.clock
    && Total(k.pcb) + o <= if k.curr.Some? then k.todStart else k.clock
  }

  /** How a handler treats p_time: it leaves it, adds the running slice, or resets a new PCB. */
  ghost predicate Unchanged(k: Kernel, k': Kernel) {
    |k'.pcb| == |k.pcb| && forall q :: 0 <= q < |k.pcb| ==> k'.pcb[q].time == k.pcb[q].time
  }

  /** A state whose slice starts at `t`, or with nobody running. */
  lemma Fresh(k: Kernel, k': Kernel, t: int, o: int)
    requires TimeOk(k, o) && Unchanged(k, k') && k.clock <= t && k'.clock == t && k'.todStart <= t
    requires k'.curr.Some? ==> k'.todStart == t || (k'.curr == k.curr && k'.todStart == k.todStart)
    ensures TimeOk(k', o)
  {
    TotalSame(k.pcb, k'.pcb);
  }

  lemma ChargeTime(k: Kernel, t: int, o: int)
    requires Wf(k) && TimeOk(k, o) && k.curr.Some? && k.clock <= t
    ensures NoNegative(Charge(k, t).pcb) && Total(Charge(k, t).pcb) + o <= t
  {
    TotalUpdate(k.pcb, k.curr.value, Charge(k, t).pcb[k.curr.value]);
  }

  lemma Charged(k: Kernel, k': Kernel, t: int, t': int, o: int)
    requires Wf(k) && TimeOk(k, o) && k.curr.Some? && k.clock <= t <= t' && k'.clock == t'
    requires Unchanged(Charge(k, t), k') && k'.todStart <= t' && (k'.curr.Some? ==> k'.todStart == t')
    ensures TimeOk(k', o)
  {
    ChargeTime(k, t, o);
    TotalSame(Charge(k, t).pcb, k'.pcb);
  }

  /** What dispatch does to the slice. */
  ghost predicate Redispatched(k: Kernel, k': Kernel, t: int) {
    Unchanged(k, k') && k'.todStart == if k'.curr.Some? then t else k.todStart
  }

  lemma BlockTime(k: Kernel, key: int, t: int)
    requires Wf(k) && k.curr.Some?
    ensures Redispatched(k, Dispatch(Block(k, key), t), t)
  {
    assert Unchanged(k, Block(k, key));
  }

  lemma YieldTime(k: Kernel, t: int, t': int)
    requires Wf(k) && k.curr.Some?
    ensures Redispatched(Charge(k, t), Yield(k, t, t'), t')
  {
    var k1 := Charge(k, t);
    if k1.ready == [] {
      assert MakeReady(k1, k1.curr.value).ready != [];
    }
  }

  lemma LocalTimerTime(k: Kernel, t: int, t': int)
    requires Wf(k) && k.curr.Some?
    ensures Redispatched(Charge(k, t), LocalTimer(k, t, t'), t')
  {
    var k1 := Charge(k, t);
    assert MakeReady(k1, k1.curr.value).ready != [];
  }

  lemma WaitTime(k: Kernel, m: Moment)
    requires Inv(k) && k.mode == Running
    requires m.e.NSys3? || m.e.NSys5? || m.e.NSys7? || m.e.NSys10?
    ensures if m.e.NSys3? && Val(k, m.e.a) > 0
            then HandleWait(k, m) == k.(sem := k.sem[m.e.a := Val(k, m.e.a) - 1])
            else Redispatched(Charge(k, m.t), HandleWait(k, m), m.t')
  {
    var k1 := Charge(k, m.t);
    match m.e
    case NSys3(a) => BlockTime(k1, a, m.t');
    case NSys5(a1) => SoftTime(k, SemIndex(a1), m.t, m.t');
    case NSys7 => SoftTime(k, NSUPPSEM, m.t, m.t');
    case NSys10 => YieldTime(k, m.t, m.t');
  }

  lemma SoftTime(k: Kernel, i: int, t: int, t': int)
    requires Wf(k) && k.curr.Some?
    ensures Redispatched(Charge(k, t), SoftWait(k, i, t, t'), t')
  {
    var k1 := Charge(k, t);
    BlockTime(k1.(softBlock := k1.softBlock + 1), DevAddr(k.devs, i), t');
  }

  lemma InterruptTime(k: Kernel, m: Moment, o: int)
    requires Inv(k) && Enabled(k, m) && TimeOk(k, o) && (m.e.Plt? || m.e.It? || m.e.Dev?)
    ensures TimeOk(Step(k, m), o)
  {
    if m.e.Plt? {
      LocalTimerTime(k, m.t, m.t');
      Charged(k, Step(k, m), m.t, m.t', o);
    } else if m.e.It? {
      TickTime(k, m.t');
      Fresh(k, Step(k, m), m.t', o);
    } else {
      DeviceTime(k, m);
      Fresh(k, Step(k, m), m.t', o);
    }
  }

  lemma TickTime(k: Kernel, t: int)
    requires Inv(k)
    ensures Redispatched(k, Tick(k, t), t)
  {
    DrainFrame(k);
    var k1 := Drain(k);
    var k2 := k1.(sem := k1.sem[DevAddr(k.devs, NSUPPSEM) := 0]);
    RestartTime(k2, t);
  }

  lemma RestartTime(k: Kernel, t: int)
    requires Wf(k)
    ensures var k' := if k.curr.Some? then Dispatch(MakeReady(k, k.curr.value), t) else Dispatch(k, t);
            Redispatched(k, k', t)
  {
    if k.curr.Some? {
      assert MakeReady(k, k.curr.value).ready != [];
    }
  }

  lemma DeviceTime(k: Kernel, m: Moment)
    requires Wf(k) && m.e.Dev?
    ensures var k' := Device(k, m.e.line, m.e.pending, m.e.recv, m.e.transm, m.e.status, m.t');
            && Unchanged(k, k')
            && (k'.curr.Some? ==> k'.todStart == m.t' || (k'.curr == k.curr && k'.todStart == k.todStart))
            && (k'.curr.None? ==> k'.todStart == k.todStart)
            && (k.curr.Some? ==> k'.curr == k.curr && k'.todStart == k.todStart)
  {
    var s := Interrupting(m.e.line, m.e.pending, m.e.recv, m.e.transm, m.e.status);
    if s.Some? {
      SignalTime(k, s.value.0, s.value.1);
      ResumeTime(k, Signal(k, s.value.0, s.value.1), m.t');
    } else {
      ResumeTime(k, k, m.t');
    }
  }

  lemma ResumeTime(k: Kernel, k1: Kernel, t: int)
    requires Unchanged(k, k1) && k1.curr == k.curr && k1.todStart == k.todStart
    ensures var k' := Resume(k1, t);
            && Unchanged(k, k')
            && (k'.curr.Some? ==> k'.todStart == t || (k'.curr == k.curr && k'.todStart == k.todStart))
            && (k'.curr.None? ==> k'.todStart == k.todStart)
            && (k.curr.Some? ==> k'.curr == k.curr && k'.todStart == k.todStart)
  {
  }

  lemma SignalTime(k: Kernel, i: int, status: int)
    requires Wf(k)
    ensures var k' := Signal(k, i, status); Unchanged(k, k') && k'.curr == k.curr && k'.todStart == k.todStart
  {
    WaitersInRange(k.asl, DevAddr(k.devs, i), |k.pcb|);
    var w := Waiters(k.asl, DevAddr(k.devs, i));
    assert w != [] ==> w[0] in w;
  }

  lemma ProcessTime(k: Kernel, m: Moment, o: int)
    requires Inv(k) && Enabled(k, m) && Guard(k, m.e) && TimeOk(k, o)
    requires m.e.NSys1? || m.e.NSys2? || m.e.NSys4? || m.e.Trap?
    ensures TimeOk(Step(k, m), o)
  {
    if m.e.NSys1? && k.free != [] {
      CreateTime(k, m, o);
    } else if (m.e.NSys2? || m.e.Trap?) && Target(k, m.e).Some? {
      KillTime(k, m, o);
    } else {
      QuietProcessTime(k, m, o);
    }
  }

  lemma QuietProcessTime(k: Kernel, m: Moment, o: int)
    requires Inv(k) && Enabled(k, m) && TimeOk(k, o)
    requires (m.e.NSys1? && k.free == []) || m.e.NSys4? || ((m.e.NSys2? || m.e.Trap?) && Target(k, m.e).None?)
    ensures TimeOk(Step(k, m), o)
  {
    MildTime(k, m);
    QuietTime(k, HandleProcess(k, m), m.t', o);
    ProcessStep(k, m);
  }

  lemma ProcessStep(k: Kernel, m: Moment)
    requires Wf(k) && Enabled(k, m) && k.mode == Running && k.curr.Some?
    requires m.e.NSys1? || m.e.NSys2? || m.e.NSys4? || m.e.Trap?
    ensures Step(k, m) == HandleProcess(k, m).(clock := m.t')
  {
  }

  lemma QuietTime(k: Kernel, k': Kernel, t: int, o: int)
    requires TimeOk(k, o) && k.clock <= t && Unchanged(k, k') && k'.curr == k.curr && k'.todStart == k.todStart
    ensures TimeOk(k'.(clock := t), o)
  {
    Fresh(k, k'.(clock := t), t, o);
  }

  /** A creation that fails, a V and a termination without a victim charge nobody. */
  lemma MildTime(k: Kernel, m: Moment)
    requires Inv(k) && k.mode == Running
    requires (m.e.NSys1? && k.free == []) || m.e.NSys4? || ((m.e.NSys2? || m.e.Trap?) && Target(k, m.e).None?)
    ensures var k' := HandleProcess(k, m); Unchanged(k, k') && k'.curr == k.curr && k'.todStart == k.todStart
  {
  }

  lemma CreateTime(k: Kernel, m: Moment, o: int)
    requires Inv(k) && Enabled(k, m) && TimeOk(k, o) && m.e.NSys1? && k.free != []
    ensures TimeOk(Step(k, m), o)
  {
    FreeApart(k);
    CreatedTime(k, m.e.prio, m.e.support, o);
    ClockTime(k, Create(k, m.e.prio, m.e.support), m.t', o);
  }

  lemma FreeApart(k: Kernel)
    requires Partition(k) && k.curr.Some? && k.free != []
    ensures k.free[0] < |k.pcb| && k.free[0] != k.curr.value
  {
    assert k.free[0] in k.free;
    PlaceOf(k, k.free[0]);
  }

  lemma ClockTime(k: Kernel, k': Kernel, t: int, o: int)
    requires TimeOk(k, o) && k.clock <= t && NoNegative(k'.pcb) && Total(k'.pcb) <= Total(k.pcb)
    requires k'.curr == k.curr && k'.todStart == k.todStart
    ensures TimeOk(k'.(clock := t), o)
  {
  }

  /** A new PCB starts at 0, whatever its predecessor in the slot was charged. */
  lemma CreatedTime(k: Kernel, prio: int, support: int, o: int)
    requires Wf(k) && TimeOk(k, o) && k.curr.Some? && k.free != [] && k.free[0] < |k.pcb| && k.free[0] != k.curr.value
    ensures var k' := Create(k, prio, support);
            NoNegative(k'.pcb) && Total(k'.pcb) <= Total(k.pcb) && k'.curr == k.curr && k'.todStart == k.todStart
  {
    var p, c := k.free[0], k.curr.value;
    var k' := Create(k, prio, support);
    var pcb := k.pcb[p := k'.pcb[p]];
    TotalUpdate(k.pcb, p, k'.pcb[p]);
    TotalUpdate(pcb, c, k'.pcb[c]);
    assert k'.pcb == pcb[c := k'.pcb[c]];
  }

  lemma KillTime(k: Kernel, m: Moment, o: int)
    requires Inv(k) && Enabled(k, m) && Guard(k, m.e) && TimeOk(k, o)
    requires (m.e.NSys2? || m.e.Trap?) && Target(k, m.e).Some?
    ensures TimeOk(Step(k, m), o)
  {
    KillRedispatches(k, m);
    Restarted(k, HandleProcess(k, m), m.t', o);
  }

  lemma KillRedispatches(k: Kernel, m: Moment)
    requires Inv(k) && k.mode == Running && Guard(k, m.e)
    requires (m.e.NSys2? || m.e.Trap?) && Target(k, m.e).Some?
    ensures Redispatched(k, HandleProcess(k, m), m.t')
  {
    PlaceOf(k, k.curr.value);
    KilledTime(k, Target(k, m.e).value, m.t');
    KillStep(k, m);
  }

  lemma Restarted(k: Kernel, k': Kernel, t: int, o: int)
    requires TimeOk(k, o) && k.clock <= t && Redispatched(k, k', t)
    ensures TimeOk(k'.(clock := t), o)
  {
    Fresh(k, k'.(clock := t), t, o);
  }

  lemma KillStep(k: Kernel, m: Moment)
    requires Inv(k) && k.mode == Running && (m.e.NSys2? || m.e.Trap?) && Target(k, m.e).Some?
    ensures HandleProcess(k, m) == Dispatch(TerminateProcess(k, Target(k, m.e).value), m.t')
  {
  }

  lemma KilledTime(k: Kernel, p: nat, t: int)
    requires Inv(k) && k.curr.Some? && Live(k.pcb, k.free, p) && KillOk(k, p)
    ensures Redispatched(k, Dispatch(TerminateProcess(k, p), t), t)
  {
    KilledState(k, p);
    IdleDispatch(TerminateProcess(k, p), t);
  }

  lemma KilledState(k: Kernel, p: nat)
    requires Base(k) && k.curr.Some? && Live(k.pcb, k.free, p) && KillOk(k, p)
    ensures var k' := TerminateProcess(k, p); Unchanged(k, k') && k'.curr.None? && k'.todStart == k.todStart
  {
    SubtreeTermination(k, p);
    GoneTime(k, TerminateProcess(k, p), Descendants(k.pcb, k.free, p));
  }

  lemma IdleDispatch(k: Kernel, t: int)
    requires k.curr.None?
    ensures Redispatched(k, Dispatch(k, t), t)
  {
  }

  lemma GoneTime(k: Kernel, k': Kernel, d: set<nat>)
    requires k.curr.Some? && k.curr.value in d && Gone(k, k', d)
    ensures Unchanged(k, k') && k'.curr.None? && k'.todStart == k.todStart
  {
  }

  lemma StepTime(k: Kernel, m: Moment, o: int)
    requires Inv(k) && Enabled(k, m) && Guard(k, m.e) && TimeOk(k, o)
    ensures TimeOk(Step(k, m), o)
  {
    if m.e.Plt? || m.e.It? || m.e.Dev? {
      InterruptTime(k, m, o);
    } else if m.e.NSys6? || m.e.NSys8? || m.e.NSys9? {
      Fresh(k, Step(k, m), m.t', o);
    } else if m.e.NSys1? || m.e.NSys2? || m.e.NSys4? || m.e.Trap? {
      ProcessTime(k, m, o);
    } else {
      WaitTime(k, m);
      if m.e.NSys3? && Val(k, m.e.a) > 0 {
        Fresh(k, Step(k, m), m.t', o);
      } else {
        Charged(k, Step(k, m), m.t, m.t', o);
      }
    }
  }

  /** In every run, the processor time charged to all PCBs together with the running slice never
      exceeds the time since the origin, which for a run from boot is the time of boot. */
  lemma {:induction false} CpuTimeBound(k: Kernel, ms: seq<Moment>, o: int)
    requires Inv(k) && Guarded(k, ms) && TimeOk(k, o)
    ensures var r := Run(k, ms);
            TimeOk(r, o) && Total(r.pcb) + (if r.curr.Some? then r.clock - r.todStart else 0) <= r.clock - o
    decreases |ms|
  {
    if ms != [] {
      StepInv(k, ms[0]);
      StepTime(k, ms[0], o);
      CpuTimeBound(Step(k, ms[0]), ms[1..], o);
    }
  }

  lemma BootTime(devs: int, maxproc: nat, sem: map<int, int>, t: int)
    requires maxproc > 0
    ensures TimeOk(Boot(devs, maxproc, sem, t), t)
  {
    var k := Boot(devs, maxproc, sem, t);
    ZeroTotal(k.pcb);
  }

  lemma {:induction false} ZeroTotal(pcb: seq<Pcb>)
    requires forall q :: 0 <= q < |pcb| ==> pcb[q].time == 0
    ensures Total(pcb) == 0
  {
    if pcb != [] {
      ZeroTotal(pcb[1..]);
    }
  }

  /** The events that end a slice and charge it: the tick ends one without charging. */
  predicate Charges(k: Kernel, e: Event) {
    e.Plt? || e.NSys10? || e.NSys5? || e.NSys7? || (e.NSys3? && Val(k, e.a) <= 0)
  }

  /** What one event adds to p_time: the running slice to the running process if it charges,
      nothing to anybody else. */
  lemma ExactCharge(k: Kernel, m: Moment, q: nat)
    requires Inv(k) && Enabled(k, m) && Live(k.pcb, k.free, q)
    ensures Step(k, m).pcb[q].time ==
            k.pcb[q].time + if Charges(k, m.e) && k.curr == Some(q) then m.t - k.todStart else 0
  {
    if m.e.Plt? || m.e.It? || m.e.Dev? {
      InterruptCharge(k, m, q);
    } else if m.e.NSys6? || m.e.NSys8? || m.e.NSys9? {
      ReadCharge(k, m, q);
    } else if m.e.NSys1? || m.e.NSys2? || m.e.NSys4? || m.e.Trap? {
      ProcessCharge(k, m, q);
    } else {
      WaitCharge(k, m, q);
    }
  }

  lemma InterruptCharge(k: Kernel, m: Moment, q: nat)
    requires Inv(k) && Enabled(k, m) && q < |k.pcb| && (m.e.Plt? || m.e.It? || m.e.Dev?)
    ensures HandleInterrupt(k, m).pcb[q].time ==
            k.pcb[q].time + if m.e.Plt? && k.curr == Some(q) then m.t - k.todStart else 0
  {
    if m.e.Plt? {
      LocalTimerTime(k, m.t, m.t');
    } else if m.e.It? {
      TickTime(k, m.t');
    } else {
      DeviceTime(k, m);
    }
  }

  lemma ReadCharge(k: Kernel, m: Moment, q: nat)
    requires Inv(k) && k.mode == Running && q < |k.pcb| && (m.e.NSys6? || m.e.NSys8? || m.e.NSys9?)
    ensures HandleRead(k, m).pcb[q].time == k.pcb[q].time
  {
  }

  lemma WaitCharge(k: Kernel, m: Moment, q: nat)
    requires Inv(k) && k.mode == Running && q < |k.pcb|
    requires m.e.NSys3? || m.e.NSys5? || m.e.NSys7? || m.e.NSys10?
    ensures HandleWait(k, m).pcb[q].time ==
            k.pcb[q].time + if Charges(k, m.e) && k.curr == Some(q) then m.t - k.todStart else 0
  {
    WaitTime(k, m);
  }

  lemma ProcessCharge(k: Kernel, m: Moment, q: nat)
    requires Inv(k) && k.mode == Running && Live(k.pcb, k.free, q)
    requires m.e.NSys1? || m.e.NSys2? || m.e.NSys4? || m.e.Trap?
    ensures HandleProcess(k, m).pcb[q].time == k.pcb[q].time
  {
    if m.e.NSys1? {
      assert k.free != [] ==> k.free[0] in k.free;
    } else if !m.e.NSys4? && Target(k, m.e).Some? {
      PlaceOf(k, k.curr.value);
      KillStep(k, m);
      KilledUncharged(k, Target(k, m.e).value, m.t');
    }
  }

  lemma KilledUncharged(k: Kernel, p: nat, t: int)
    requires Base(k) && Live(k.pcb, k.free, p)
    ensures Unchanged(k, Dispatch(TerminateProcess(k, p), t))
  {
    KilledTimes(k, p);
    DispatchTimes(k, TerminateProcess(k, p), t);
  }

  lemma KilledTimes(k: Kernel, p: nat)
    requires Base(k) && Live(k.pcb, k.free, p)
    ensures Unchanged(k, TerminateProcess(k, p))
  {
    KillTree(k, p);
    ErasedTimes(k.pcb, TerminateProcess(k, p).pcb, k.free, Descendants(k.pcb, k.free, p));
  }

  lemma DispatchTimes(k: Kernel, k1: Kernel, t: int)
    requires Unchanged(k, k1)
    ensures Unchanged(k, Dispatch(k1, t))
  {
  }

  lemma KillTree(k: Kernel, p: nat)
    requires Base(k) && Live(k.pcb, k.free, p)
    ensures ErasedTree(k.pcb, TerminateProcess(k, p).pcb, k.free, Descendants(k.pcb, k.free, p))
  {
    BaseLoose(k);
    TerminateErases(k, p);
  }

  lemma ErasedTimes(pcb: seq<Pcb>, pcb': seq<Pcb>, free: seq<nat>, d: set<nat>)
    requires ErasedTree(pcb, pcb', free, d)
    ensures |pcb'| == |pcb| && forall q :: 0 <= q < |pcb| ==> pcb'[q].time == pcb[q].time
  {
  }

  /** What GETTIME answers if `q` asks at time `t`; for a process that is not running, what it would
      have been charged by then. */
  function Reading(k: Kernel, q: nat, t: int): int
    requires q < |k.pcb|
  {
    k.pcb[q].time + if k.curr == Some(q) then t - k.todStart else 0
  }

  /** The slice of `q` goes on, or it ends and whatever runs next starts afresh at `t`; with nobody
      running, tod_start is left alone. */
  predicate Sliced(k: Kernel, k': Kernel, q: nat, on: bool, t: int) {
    && (if k.curr == Some(q) && on then k'.curr == k.curr && k'.todStart == k.todStart
        else k'.curr == Some(q) ==> k'.todStart == t)
    && (k'.curr.None? ==> k'.todStart == k.todStart)
  }

  /** How an event treats the slice of a process that it does not terminate: it goes on unless the
      event charges or is a tick. */
  lemma SliceStep(k: Kernel, m: Moment, q: nat)
    requires Inv(k) && Enabled(k, m) && Guard(k, m.e) && q !in Victims(k, m.e)
    ensures Sliced(k, Step(k, m), q, !Charges(k, m.e) && !m.e.It?, m.t')
  {
    if m.e.Plt? || m.e.It? || m.e.Dev? {
      InterruptSlice(k, m, q);
    } else if m.e.NSys6? || m.e.NSys8? || m.e.NSys9? {
      ReadSlice(k, m, q);
    } else if m.e.NSys1? || m.e.NSys2? || m.e.NSys4? || m.e.Trap? {
      ProcessSlice(k, m, q);
    } else {
      WaitSlice(k, m, q);
    }
  }

  lemma ReadSlice(k: Kernel, m: Moment, q: nat)
    requires Wf(k) && k.curr.Some? && (m.e.NSys6? || m.e.NSys8? || m.e.NSys9?)
    ensures Sliced(k, HandleRead(k, m), q, true, m.t')
  {
  }

  lemma WaitSlice(k: Kernel, m: Moment, q: nat)
    requires Inv(k) && k.mode == Running && (m.e.NSys3? || m.e.NSys5? || m.e.NSys7? || m.e.NSys10?)
    ensures Sliced(k, HandleWait(k, m), q, !Charges(k, m.e), m.t')
  {
    WaitTime(k, m);
  }

  lemma InterruptSlice(k: Kernel, m: Moment, q: nat)
    requires Inv(k) && Enabled(k, m) && (m.e.Plt? || m.e.It? || m.e.Dev?)
    ensures Sliced(k, HandleInterrupt(k, m), q, m.e.Dev?, m.t')
  {
    if m.e.Plt? {
      LocalTimerTime(k, m.t, m.t');
    } else if m.e.It? {
      TickTime(k, m.t');
    } else {
      DeviceTime(k, m);
    }
  }

  lemma ProcessSlice(k: Kernel, m: Moment, q: nat)
    requires Inv(k) && k.mode == Running && Guard(k, m.e) && q !in Victims(k, m.e)
    requires m.e.NSys1? || m.e.NSys2? || m.e.NSys4? || m.e.Trap?
    ensures Sliced(k, HandleProcess(k, m), q, true, m.t')
  {
    if !m.e.NSys1? && !m.e.NSys4? && Target(k, m.e).Some? {
      KillRedispatches(k, m);
    }
  }

  /** GETTIME goes backwards for a process that is not terminated exactly when a tick interrupts it
      after some of its slice has passed: every other event keeps what it would read. */
  lemma ReadingDrops(k: Kernel, m: Moment, q: nat)
    requires Inv(k) && Enabled(k, m) && Guard(k, m.e) && k.todStart <= k.clock
    requires Live(k.pcb, k.free, q) && q !in Victims(k, m.e)
    ensures Reading(Step(k, m), q, m.t') < Reading(k, q, m.t) <==>
              m.e.It? && k.curr == Some(q) && k.todStart < m.t
    ensures m.e == NSys6 && k.curr == Some(q) ==> Step(k, m).pcb[q].a0 == Reading(k, q, m.t)
  {
    ExactCharge(k, m, q);
    SliceStep(k, m, q);
  }

  /** GETTIME may go backwards: itInterruptHandler restarts the slice without charging it, so a
      process resumed by a tick reads less than it would have read before the tick. */
  lemma TickForgets(k: Kernel, t: int, t': int, t'': int)
    requires Inv(k) && k.curr.Some? && k.ready == [] && Waiters(k.asl, DevAddr(k.devs, NSUPPSEM)) == []
    requires k.todStart < t <= t' == t''
    ensures var c := k.curr.value;
            var k' := Tick(k, t');
            && k'.curr == Some(c)
            && GetTime(k', t'').pcb[c].a0 < GetTime(k, t).pcb[c].a0
  {
    TickAlone(k, t');
  }

  /** The first process, interrupted by a tick at any time after boot, reads 0 after it. */
  lemma TickAfterBoot(devs: int, maxproc: nat, sem: map<int, int>, t0: int, t: int, t': int)
    requires devs > 0 && maxproc > 0 && t0 < t <= t'
    ensures var k, ms, c := Boot(devs, maxproc, sem, t0), [Moment(It, t, t')], maxproc - 1;
            && Inv(k) && Guarded(k, ms) && k.curr == Some(c) && c < |k.pcb|
            && Reading(Run(k, ms), c, t') == 0 < t - t0 == Reading(k, c, t)
  {
    var k, m, c := Boot(devs, maxproc, sem, t0), Moment(It, t, t'), maxproc - 1;
    BootInv(devs, maxproc, sem, t0);
    StepInv(k, m);
    RunCons(k, m, []);
    assert [m] + [] == [m];
    assert k.ready == [] && Waiters(k.asl, DevAddr(devs, NSUPPSEM)) == [];
    TickAlone(k, t');
    assert Step(k, m) == Tick(k, t').(clock := t');
  }

  /** A tick that finds nobody waiting for it and nobody ready resumes the interrupted process. */
  lemma TickAlone(k: Kernel, t: int)
    requires Wf(k) && k.curr.Some? && k.ready == [] && Waiters(k.asl, DevAddr(k.devs, NSUPPSEM)) == []
    ensures Tick(k, t).curr == k.curr && Tick(k, t).pcb == k.pcb && Tick(k, t).todStart == t
  {
    assert Drain(k) == k;
  }

  // ---------------------------------------------------------------- round robin

  function Rotate(s: seq<nat>): seq<nat> { if s == [] then [] else s[1..] + [s[0]] }

  function Rotations(s: seq<nat>, n: nat): seq<nat>
    decreases n
  {
    if n == 0 then s else Rotations(Rotate(s), n - 1)
  }

  lemma {:induction false} RotationsAt(s: seq<nat>, n: nat, i: nat)
    requires i < |s|
    ensures |Rotations(s, n)| == |s| && Rotations(s, n)[i] == s[(i + n) % |s|]
    decreases n
  {
    if n > 0 {
      var r := Rotate(s);
      RotationsAt(r, n - 1, i);
      var j := (i + n - 1) % |s|;
      assert r[j] == if j == |s| - 1 then s[0] else s[j + 1];
      NextIndex(i + n - 1, |s|);
    }
  }

  lemma NextIndex(x: nat, n: nat)
    requires n > 0
    ensures (x + 1) % n == if x % n == n - 1 then 0 else x % n + 1
  {
    assert x == n * (x / n) + x % n;
    if x % n == n - 1 {
      assert x + 1 == n * (x / n + 1);
      Unique(x + 1, x / n + 1, 0, n);
    } else {
      Unique(x + 1, x / n, x % n + 1, n);
    }
  }

  lemma Unique(x: nat, q: nat, r: nat, n: nat)
    requires r < n && x == n * q + r
    ensures x % n == r
  {
    var q', r' := x / n, x % n;
    assert x == n * q' + r';
    if q < q' {
      Scale(q + 1, q', n);
    } else if q' < q {
      Scale(q' + 1, q, n);
    }
  }

  lemma Scale(a: nat, b: nat, n: nat)
    requires a <= b
    ensures n * a <= n * b && n * a == n * (a - 1) + n
  {
    assert n * b == n * a + n * (b - a);
  }

  /** Who will run, in order: the running process, then the ready queue. */
  function Schedule(k: Kernel): seq<nat> {
    (if k.curr.Some? then [k.curr.value] else []) + k.ready
  }

  ghost predicate SamePriority(k: Kernel, prio: int) {
    forall q :: q in Schedule(k) && q < |k.pcb| ==> k.pcb[q].prio == prio
  }

  /** Among equals the interrupted process goes to the back. */
  lemma EqualsAppend(pcb: seq<Pcb>, ready: seq<nat>, c: nat)
    requires InRange(ready, |pcb|) && c < |pcb| && forall q :: q in ready ==> pcb[q].prio == pcb[c].prio
    ensures InsertProcQ(pcb, ready, c) == ready + [c]
  {
    var ps := Prios(pcb, ready);
    assert forall i :: 0 <= i < |ready| ==> ready[i] in ready;
    assert forall i :: 0 <= i < |ps| ==> ps[i] == pcb[c].prio;
    assert Slot(ps, pcb[c].prio) == |ready|;
  }

  lemma PltRotates(k: Kernel, m: Moment, prio: int)
    requires Inv(k) && Enabled(k, m) && m.e.Plt? && SamePriority(k, prio)
    ensures Schedule(Step(k, m)) == Rotate(Schedule(k))
    ensures SamePriority(Step(k, m), prio) && Step(k, m).curr.Some?
  {
    var c := k.curr.value;
    var k1 := Charge(k, m.t);
    assert forall q :: q in [c] + k.ready <==> q == c || q in k.ready;
    EqualsAppend(k1.pcb, k.ready, c);
    var k' := LocalTimer(k, m.t, m.t');
    assert [k'.curr.value] + k'.ready == k.ready + [c];
    assert forall q :: q in k.ready + [c] <==> q == c || q in k.ready;
    assert ([c] + k.ready)[1..] == k.ready;
    assert k'.pcb == k1.pcb;
  }

  /** Round robin: with equal priorities and only local-timer interrupts, n ticks rotate the
      schedule by n, so the process dispatched after the n-th is the n-th in turn. */
  lemma {:induction false} RoundRobin(k: Kernel, ms: seq<Moment>, prio: int)
    requires Inv(k) && Guarded(k, ms) && k.curr.Some? && SamePriority(k, prio)
    requires forall i :: 0 <= i < |ms| ==> ms[i].e.Plt?
    ensures Schedule(Run(k, ms)) == Rotations(Schedule(k), |ms|)
    ensures Run(k, ms).curr == Some(Schedule(k)[|ms| % |Schedule(k)|])
    decreases |ms|
  {
    var r := RoundRobinTurns(k, ms, prio);
    RotationsAt(Schedule(k), |ms|, 0);
    ScheduleHead(r);
    assert (0 + |ms|) % |Schedule(k)| == |ms| % |Schedule(k)|;
  }

  lemma ScheduleHead(k: Kernel)
    requires k.curr.Some?
    ensures Schedule(k)[0] == k.curr.value
  {
  }

  lemma {:induction false} RoundRobinTurns(k: Kernel, ms: seq<Moment>, prio: int) returns (r: Kernel)
    requires Inv(k) && Guarded(k, ms) && k.curr.Some? && SamePriority(k, prio)
    requires forall i :: 0 <= i < |ms| ==> ms[i].e.Plt?
    ensures r == Run(k, ms) && Schedule(r) == Rotations(Schedule(k), |ms|) && r.curr.Some?
    decreases |ms|
  {
    if ms == [] {
      r := k;
    } else {
      var k1, rest := FirstTurn(k, ms, prio);
      r := RoundRobinTurns(k1, rest, prio);
      RotateFirst(Schedule(k), Schedule(k1), |ms|);
    }
  }

  lemma RotateFirst(s: seq<nat>, s': seq<nat>, n: nat)
    requires n > 0 && s' == Rotate(s)
    ensures Rotations(s, n) == Rotations(s', n - 1)
  {
  }

  /** One tick, and what is left of the run. */
  lemma FirstTurn(k: Kernel, ms: seq<Moment>, prio: int) returns (k1: Kernel, rest: seq<Moment>)
    requires Inv(k) && Guarded(k, ms) && k.curr.Some? && SamePriority(k, prio) && ms != []
    requires forall i :: 0 <= i < |ms| ==> ms[i].e.Plt?
    ensures |rest| == |ms| - 1 && Inv(k1) && Guarded(k1, rest) && Run(k, ms) == Run(k1, rest)
    ensures k1.curr.Some? && SamePriority(k1, prio) && Schedule(k1) == Rotate(Schedule(k))
    ensures forall i :: 0 <= i < |rest| ==> rest[i].e.Plt?
  {
    k1, rest := Step(k, ms[0]), ms[1..];
    RunTail(k, ms);
    PltRotates(k, ms[0], prio);
  }

  lemma {:induction false} GuardedPrefix(k: Kernel, ms: seq<Moment>, n: nat)
    requires Inv(k) && Guarded(k, ms) && n <= |ms|
    ensures Guarded(k, ms[..n])
    decreases n
  {
    if n > 0 {
      var rest := PrefixCons(ms, n);
      RunTail(k, ms);
      GuardedPrefix(Step(k, ms[0]), rest, n - 1);
      RunCons(k, ms[0], rest[..n - 1]);
    }
  }

  lemma PrefixCons(ms: seq<Moment>, n: nat) returns (rest: seq<Moment>)
    requires 0 < n <= |ms|
    ensures rest == ms[1..] && |rest| == |ms| - 1 && ms[..n] == [ms[0]] + rest[..n - 1]
  {
    rest := ms[1..];
  }

  lemma ScheduleNoDup(k: Kernel)
    requires Partition(k)
    ensures NoDup(Schedule(k))
  {
    PartitionNoDup(k);
    if k.curr.Some? {
      PlaceOf(k, k.curr.value);
    }
  }

  /** In any n consecutive numbers exactly one leaves the remainder `i`. */
  lemma Turn(j: nat, n: nat, i: nat) returns (x: nat)
    requires i < n
    ensures j <= x < j + n && x % n == i
    ensures forall y: nat :: j <= y < j + n && y % n == i ==> y == x
  {
    var q, r := j / n, j % n;
    assert j == n * q + r;
    Scale(q + 1, q + 1, n);
    x := if r <= i then n * q + i else n * (q + 1) + i;
    Unique(x, if r <= i then q else q + 1, i, n);
    forall y: nat | j <= y < j + n && y % n == i
      ensures y == x
    {
      SameRemainder(x, y, n);
    }
  }

  lemma SameRemainder(x: nat, y: nat, n: nat)
    requires n > 0 && x % n == y % n && x - n < y < x + n
    ensures x == y
  {
    var a, b, r := x / n, y / n, x % n;
    assert x == n * a + r && y == n * b + r;
    if a < b {
      Gap(a, b, n);
    } else if b < a {
      Gap(b, a, n);
    }
  }

  lemma Gap(a: nat, b: nat, n: nat)
    requires a < b
    ensures n * a + n <= n * b
  {
    Scale(a + 1, b, n);
    assert n * (a + 1) == n * a + n;
  }

  /** Once per round: among any |schedule| consecutive dispatches of such a run each scheduled
      process is the one dispatched exactly once. */
  lemma OncePerRound(k: Kernel, ms: seq<Moment>, prio: int, j: nat, q: nat) returns (x: nat)
    requires Inv(k) && Guarded(k, ms) && k.curr.Some? && SamePriority(k, prio)
    requires forall i :: 0 <= i < |ms| ==> ms[i].e.Plt?
    requires q in Schedule(k) && j + |Schedule(k)| <= |ms| + 1
    ensures forall y: nat :: y <= |ms| ==> Guarded(k, ms[..y])
    ensures j <= x < j + |Schedule(k)|
    ensures forall y: nat :: j <= y < j + |Schedule(k)| ==> (Run(k, ms[..y]).curr == Some(q) <==> y == x)
  {
    var n := |Schedule(k)|;
    var i :| 0 <= i < n && Schedule(k)[i] == q;
    x := Turn(j, n, i);
    AllPrefixes(k, ms);
    forall y: nat | j <= y < j + n
      ensures Run(k, ms[..y]).curr == Some(q) <==> y == x
    {
      TurnAt(k, ms, prio, y, i);
    }
  }

  lemma AllPrefixes(k: Kernel, ms: seq<Moment>)
    requires Inv(k) && Guarded(k, ms)
    ensures forall y: nat :: y <= |ms| ==> Guarded(k, ms[..y])
  {
    forall y: nat | y <= |ms|
      ensures Guarded(k, ms[..y])
    {
      GuardedPrefix(k, ms, y);
    }
  }

  lemma TurnAt(k: Kernel, ms: seq<Moment>, prio: int, y: nat, i: nat)
    requires Inv(k) && k.curr.Some? && SamePriority(k, prio) && y <= |ms| && Guarded(k, ms[..y])
    requires (forall l :: 0 <= l < |ms| ==> ms[l].e.Plt?) && i < |Schedule(k)|
    ensures Run(k, ms[..y]).curr == Some(Schedule(k)[i]) <==> y % |Schedule(k)| == i
  {
    RoundRobin(k, ms[..y], prio);
    ScheduleNoDup(k);
  }
}
