/** The order of the ready queue: descending priority and, within a priority, first come, first
    served, at every step and over every run. */
module Scheduling {
  import opened Queues
  import opened NucleusSpec
  import opened Invariant
  import opened Handlers
  import opened Subtree
  import opened Termination
  import opened Runs
  import opened Semaphores

  // ---------------------------------------------------------------- priority classes

  predicate AtLevel(pcb: seq<Pcb>, q: nat, x: int) { q < |pcb| && pcb[q].prio == x }

  /** The members of `q` of priority `x`, in order. */
  function Level(pcb: seq<Pcb>, q: seq<nat>, x: int): seq<nat> {
    if q == [] then []
    else if AtLevel(pcb, q[0], x) then [q[0]] + Level(pcb, q[1..], x)
    else Level(pcb, q[1..], x)
  }

  lemma {:induction false} LevelConcat(pcb: seq<Pcb>, a: seq<nat>, b: seq<nat>, x: int)
    ensures Level(pcb, a + b, x) == Level(pcb, a, x) + Level(pcb, b, x)
  {
    if a == [] {
      assert a + b == b;
    } else {
      assert (a + b)[1..] == a[1..] + b;
      LevelConcat(pcb, a[1..], b, x);
      Reassociate(a[0], Level(pcb, a[1..], x), Level(pcb, b, x));
    }
  }

  lemma {:induction false} LevelNone(pcb: seq<Pcb>, q: seq<nat>, x: int)
    requires forall y :: y in q ==> !AtLevel(pcb, y, x)
    ensures Level(pcb, q, x) == []
  {
    if q != [] {
      LevelNone(pcb, q[1..], x);
    }
  }

  lemma {:induction false} LevelFrame(pcb: seq<Pcb>, pcb': seq<Pcb>, q: seq<nat>, x: int)
    requires |pcb'| == |pcb| && forall y :: y in q && y < |pcb| ==> pcb'[y].prio == pcb[y].prio
    ensures Level(pcb', q, x) == Level(pcb, q, x)
  {
    if q != [] {
      LevelFrame(pcb, pcb', q[1..], x);
    }
  }

  lemma {:induction false} LevelWithout(pcb: seq<Pcb>, q: seq<nat>, d: set<nat>, x: int)
    ensures Level(pcb, Without(q, d), x) == Without(Level(pcb, q, x), d)
  {
    if q != [] {
      LevelWithout(pcb, q[1..], d, x);
      if AtLevel(pcb, q[0], x) {
        assert Level(pcb, q, x)[1..] == Level(pcb, q[1..], x);
      }
      if q[0] !in d {
        assert Without(q, d)[1..] == Without(q[1..], d);
      }
    }
  }

  /** insertProcQ puts the newcomer behind everybody of its own priority and leaves the others'
      order alone. */
  lemma LevelInsert(pcb: seq<Pcb>, q: seq<nat>, p: nat, x: int)
    requires ReadySorted(pcb, q) && p < |pcb|
    ensures Level(pcb, InsertProcQ(pcb, q, p), x) == Level(pcb, q, x) + Level(pcb, [p], x)
  {
    var i := Slot(Prios(pcb, q), pcb[p].prio);
    LevelParts(pcb, q, p, i, x);
    LevelBehind(pcb, q, p, x);
    SwapEmpty(Level(pcb, q[..i], x), Level(pcb, [p], x), Level(pcb, q[i..], x));
  }

  lemma SwapEmpty(a: seq<nat>, b: seq<nat>, c: seq<nat>)
    requires b == [] || c == []
    ensures a + b + c == a + c + b
  {
  }

  /** Nobody of the newcomer's priority is behind it. */
  lemma LevelBehind(pcb: seq<Pcb>, q: seq<nat>, p: nat, x: int)
    requires ReadySorted(pcb, q) && p < |pcb|
    ensures Level(pcb, [p], x) == [] || Level(pcb, q[Slot(Prios(pcb, q), pcb[p].prio)..], x) == []
  {
    var ps := Prios(pcb, q);
    var i := Slot(ps, pcb[p].prio);
    SlotUnique(ps, pcb[p].prio, i);
    if pcb[p].prio == x {
      forall y | y in q[i..]
        ensures !AtLevel(pcb, y, x)
      {
        var j :| 0 <= j < |q[i..]| && q[i..][j] == y;
        assert ps[i + j] < x;
      }
      LevelNone(pcb, q[i..], x);
    }
  }

  lemma LevelParts(pcb: seq<Pcb>, q: seq<nat>, p: nat, i: nat, x: int)
    requires i <= |q|
    ensures Level(pcb, InsertAt(q, i, p), x) ==
            Level(pcb, q[..i], x) + Level(pcb, [p], x) + Level(pcb, q[i..], x)
    ensures Level(pcb, q, x) == Level(pcb, q[..i], x) + Level(pcb, q[i..], x)
  {
    LevelConcat(pcb, q[..i] + [p], q[i..], x);
    LevelConcat(pcb, q[..i], [p], x);
    LevelConcat(pcb, q[..i], q[i..], x);
    assert q == q[..i] + q[i..];
  }

  // ---------------------------------------------------------------- reference semantics

  /** The event ends in dispatch. */
  predicate Dispatches(k: Kernel, e: Event)
    requires Inv(k) && (k.mode == Running || e.It? || e.Dev?)
  {
    || e.Plt? || e.It? || e.NSys5? || e.NSys7? || e.NSys10? || Target(k, e).Some?
    || (e.NSys3? && Val(k, e.a) <= 0) || (e.Dev? && k.curr.None?)
  }

  function Current(k: Kernel): seq<nat> { if k.curr.Some? then [k.curr.value] else [] }

  function First(w: seq<nat>): seq<nat> { if w == [] then [] else [w[0]] }

  /** The processes that become ready, in order. */
  function Newcomers(k: Kernel, e: Event): seq<nat> {
    match e
    case NSys1(_, _) => First(k.free)
    case NSys4(a) => First(Waiters(k.asl, a))
    case NSys10 => Current(k)
    case Plt => Current(k)
    case It => Waiters(k.asl, DevAddr(k.devs, NSUPPSEM)) + Current(k)
    case Dev(line, pending, recv, transm, status) =>
      var s := Interrupting(line, pending, recv, transm, status);
      if s.None? then [] else First(Waiters(k.asl, DevAddr(k.devs, s.value.0)))
    case _ => []
  }

  /** The process just dispatched, if any, and those still ready. */
  function Lineup(k: Kernel, dispatched: bool): seq<nat> {
    (if dispatched then Current(k) else []) + k.ready
  }

  /** Priority by priority, `k'` lines up those ready in `k` less `dead`, then `late`. */
  ghost predicate Lined(k: Kernel, k': Kernel, dispatched: bool, dead: set<nat>, late: seq<nat>) {
    forall x :: Level(k'.pcb, Lineup(k', dispatched), x) ==
                Without(Level(k.pcb, k.ready, x), dead) + Level(k'.pcb, late, x)
  }

  // ---------------------------------------------------------------- each handler against it

  /** dispatch takes the head of the queue. */
  lemma DispatchLineup(k: Kernel, t: int)
    requires k.curr.None? || k.ready != []
    ensures Lineup(Dispatch(k, t), true) == k.ready && Dispatch(k, t).pcb == k.pcb
  {
  }

  /** A handler that leaves priorities alone and lines up a known queue. */
  lemma LinedUp(k: Kernel, k': Kernel, d: bool, r: seq<nat>, late: seq<nat>)
    requires Lineup(k', d) == r && |k'.pcb| == |k.pcb|
    requires forall x :: Level(k'.pcb, r, x) == Level(k.pcb, k.ready, x) + Level(k'.pcb, late, x)
    ensures Lined(k, k', d, {}, late)
  {
    forall x
      ensures Level(k'.pcb, r, x) == Without(Level(k.pcb, k.ready, x), {}) + Level(k'.pcb, late, x)
    {
      WithoutNone(Level(k.pcb, k.ready, x), {});
    }
  }

  ghost predicate SamePrios(k: Kernel, k': Kernel) {
    |k'.pcb| == |k.pcb| && forall q :: 0 <= q < |k.pcb| ==> k'.pcb[q].prio == k.pcb[q].prio
  }

  /** Nobody becomes ready. */
  lemma NobodyNew(k: Kernel, k': Kernel, d: bool)
    requires SamePrios(k, k') && Lineup(k', d) == k.ready
    ensures Lined(k, k', d, {}, [])
  {
    forall x
      ensures Level(k'.pcb, k.ready, x) == Level(k.pcb, k.ready, x) + Level(k'.pcb, [], x)
    {
      LevelFrame(k.pcb, k'.pcb, k.ready, x);
    }
    LinedUp(k, k', d, k.ready, []);
  }

  /** One process becomes ready, by insertProcQ. */
  lemma OneNew(k: Kernel, k1: Kernel, k': Kernel, d: bool, p: nat)
    requires SamePrios(k, k1) && SamePrios(k, k') && p < |k.pcb| && ReadySorted(k1.pcb, k1.ready) && k1.ready == k.ready
    requires Lineup(k', d) == InsertProcQ(k1.pcb, k.ready, p)
    ensures Lined(k, k', d, {}, [p])
  {
    var r := InsertProcQ(k1.pcb, k.ready, p);
    forall x
      ensures Level(k'.pcb, r, x) == Level(k.pcb, k.ready, x) + Level(k'.pcb, [p], x)
    {
      LevelInsert(k1.pcb, k.ready, p, x);
      LevelFrame(k1.pcb, k'.pcb, r, x);
      LevelFrame(k1.pcb, k'.pcb, [p], x);
      LevelFrame(k.pcb, k1.pcb, k.ready, x);
    }
    LinedUp(k, k', d, r, [p]);
  }

  lemma LocalTimerLined(k: Kernel, t: int, t': int)
    requires Inv(k) && k.curr.Some?
    ensures Lined(k, LocalTimer(k, t, t'), true, {}, [k.curr.value])
  {
    ChargeBase(k, t);
    var k1 := Charge(k, t);
    DispatchLineup(MakeReady(k1, k.curr.value), t');
    OneNew(k, k1, LocalTimer(k, t, t'), true, k.curr.value);
  }

  lemma BlockLined(k: Kernel, key: int, t: int)
    requires Wf(k) && k.curr.Some?
    ensures Lined(k, Dispatch(Block(k, key), t), true, {}, [])
  {
    DispatchLineup(Block(k, key), t);
    NobodyNew(k, Dispatch(Block(k, key), t), true);
  }

  lemma SoftWaitLined(k: Kernel, i: int, t: int, t': int)
    requires Wf(k) && k.curr.Some?
    ensures Lined(k, SoftWait(k, i, t, t'), true, {}, [])
  {
    var k1 := Charge(k, t);
    var k2 := k1.(softBlock := k1.softBlock + 1);
    DispatchLineup(Block(k2, DevAddr(k.devs, i)), t');
    NobodyNew(k, SoftWait(k, i, t, t'), true);
  }

  lemma PasserenLined(k: Kernel, a: int, t: int, t': int)
    requires Wf(k) && k.curr.Some?
    ensures Lined(k, Passeren(k, a, t, t'), Val(k, a) <= 0, {}, [])
  {
    var k1 := Charge(k, t);
    if Val(k, a) <= 0 {
      DispatchLineup(Block(k1, a), t');
    }
    NobodyNew(k, Passeren(k, a, t, t'), Val(k, a) <= 0);
  }

  /** NSYS10: the old head runs, the rest keeps its order, the yielder goes behind its equals. */
  lemma YieldLined(k: Kernel, t: int, t': int)
    requires Inv(k) && k.curr.Some?
    ensures Lined(k, Yield(k, t, t'), true, {}, [k.curr.value])
  {
    ChargeBase(k, t);
    var k1, c := Charge(k, t), k.curr.value;
    if k.ready == [] {
      DispatchLineup(MakeReady(k1, c).(curr := None), t');
      OneNew(k, k1, Yield(k, t, t'), true, c);
    } else {
      TailSorted(k1.pcb, k.ready);
      YieldLevels(k, t, t');
    }
  }

  lemma YieldLevels(k: Kernel, t: int, t': int)
    requires Wf(k) && k.curr.Some? && k.ready != [] && ReadySorted(Charge(k, t).pcb, k.ready[1..])
    ensures Lined(k, Yield(k, t, t'), true, {}, [k.curr.value])
  {
    var k1, c := Charge(k, t), k.curr.value;
    YieldLineup(k, t, t');
    forall x
      ensures Level(k1.pcb, [k.ready[0]] + InsertProcQ(k1.pcb, k.ready[1..], c), x) ==
              Level(k.pcb, k.ready, x) + Level(k1.pcb, [c], x)
    {
      YieldLevel(k.pcb, k1.pcb, k.ready, c, x);
    }
    LinedUp(k, Yield(k, t, t'), true, [k.ready[0]] + InsertProcQ(k1.pcb, k.ready[1..], c), [c]);
  }

  lemma YieldLineup(k: Kernel, t: int, t': int)
    requires Wf(k) && k.curr.Some? && k.ready != []
    ensures InRange(k.ready[1..], |k.pcb|)
    ensures var k1 := Charge(k, t);
            Lineup(Yield(k, t, t'), true) == [k.ready[0]] + InsertProcQ(k1.pcb, k.ready[1..], k.curr.value) &&
            Yield(k, t, t').pcb == k1.pcb
  {
    assert forall q :: q in k.ready[1..] ==> q in k.ready;
    var k1 := Charge(k, t);
    var r := [k.ready[0]] + InsertProcQ(k1.pcb, k.ready[1..], k.curr.value);
    DispatchLineup(k1.(ready := r, curr := None), t');
  }

  lemma YieldLevel(pcb: seq<Pcb>, pcb': seq<Pcb>, q: seq<nat>, c: nat, x: int)
    requires q != [] && ReadySorted(pcb', q[1..]) && c < |pcb| == |pcb'|
    requires forall y :: 0 <= y < |pcb| ==> pcb'[y].prio == pcb[y].prio
    ensures Level(pcb', [q[0]] + InsertProcQ(pcb', q[1..], c), x) == Level(pcb, q, x) + Level(pcb', [c], x)
  {
    LevelConcat(pcb', [q[0]], InsertProcQ(pcb', q[1..], c), x);
    LevelInsert(pcb', q[1..], c, x);
    HeadLevel(pcb', q, x);
    LevelFrame(pcb, pcb', q, x);
    Regroup3(Level(pcb', [q[0]], x), Level(pcb', q[1..], x), Level(pcb', [c], x));
  }

  lemma HeadLevel(pcb: seq<Pcb>, q: seq<nat>, x: int)
    requires q != []
    ensures Level(pcb, q, x) == Level(pcb, [q[0]], x) + Level(pcb, q[1..], x)
  {
    LevelConcat(pcb, [q[0]], q[1..], x);
    assert q == [q[0]] + q[1..];
  }

  lemma Regroup3(a: seq<nat>, b: seq<nat>, c: seq<nat>)
    ensures a + (b + c) == (a + b) + c
  {
  }

  lemma VerhogenLined(k: Kernel, a: int)
    requires Inv(k)
    ensures Lined(k, Verhogen(k, a), false, {}, First(Waiters(k.asl, a)))
  {
    var w := Waiters(k.asl, a);
    if w == [] {
      NobodyNew(k, Verhogen(k, a), false);
    } else {
      WakeBase(k, a);
      OneNew(k, k, Verhogen(k, a), false, w[0]);
    }
  }

  lemma SignalLined(k: Kernel, i: int, status: int)
    requires Base(k)
    ensures var w := Waiters(k.asl, DevAddr(k.devs, i));
            && SamePrios(k, Signal(k, i, status)) && Signal(k, i, status).curr == k.curr
            && (w == [] ==> Signal(k, i, status).ready == k.ready)
            && (w != [] ==> w[0] < |k.pcb| && Signal(k, i, status).ready == InsertProcQ(k.pcb, k.ready, w[0]))
  {
    if Waiters(k.asl, DevAddr(k.devs, i)) != [] {
      WakeBase(k, DevAddr(k.devs, i));
    }
  }

  lemma ResumeLineup(k: Kernel, d: bool, t: int)
    requires d == k.curr.None?
    ensures Lineup(Resume(k, t), d) == k.ready && Resume(k, t).pcb == k.pcb
  {
    if d {
      DispatchLineup(k, t);
    }
  }

  lemma DeviceLined(k: Kernel, m: Moment)
    requires Base(k) && m.e.Dev?
    ensures var k' := Device(k, m.e.line, m.e.pending, m.e.recv, m.e.transm, m.e.status, m.t');
            Lined(k, k', k.curr.None?, {}, Newcomers(k, m.e))
  {
    var s := Interrupting(m.e.line, m.e.pending, m.e.recv, m.e.transm, m.e.status);
    if s.Some? {
      SignalledLined(k, s.value.0, s.value.1, m.t');
      NewAtSignal(k, m.e);
    } else {
      QuietLined(k, m.t');
    }
  }

  lemma NewAtSignal(k: Kernel, e: Event)
    requires e.Dev?
    ensures var s := Interrupting(e.line, e.pending, e.recv, e.transm, e.status);
            Newcomers(k, e) == if s.None? then [] else First(Waiters(k.asl, DevAddr(k.devs, s.value.0)))
  {
  }

  lemma QuietLined(k: Kernel, t: int)
    ensures Lined(k, Resume(k, t), k.curr.None?, {}, [])
  {
    ResumeLineup(k, k.curr.None?, t);
    NobodyNew(k, Resume(k, t), k.curr.None?);
  }

  lemma SignalledLined(k: Kernel, i: int, status: int, t: int)
    requires Base(k)
    ensures Lined(k, Resume(Signal(k, i, status), t), k.curr.None?, {}, First(Waiters(k.asl, DevAddr(k.devs, i))))
  {
    var k1 := Signal(k, i, status);
    var w := Waiters(k.asl, DevAddr(k.devs, i));
    SignalLined(k, i, status);
    ResumeLineup(k1, k.curr.None?, t);
    if w == [] {
      NobodyNew(k, Resume(k1, t), k.curr.None?);
    } else {
      OneNew(k, k, Resume(k1, t), k.curr.None?, w[0]);
    }
  }

  /** The tick's loop makes the waiters ready in the order they waited. */
  lemma {:induction false} DrainLevel(k: Kernel, x: int)
    requires Base(k) && SoftOk(k)
    ensures Level(k.pcb, Drain(k).ready, x) ==
            Level(k.pcb, k.ready, x) + Level(k.pcb, Waiters(k.asl, DevAddr(k.devs, NSUPPSEM)), x)
    decreases |Blocked(k.asl)|
  {
    var s := DevAddr(k.devs, NSUPPSEM);
    var w := Waiters(k.asl, s);
    if w != [] {
      SoftWakeBase(k, s);
      DequeueBlocked(k.asl, s);
      var k1 := Wake(k, s).(softBlock := k.softBlock - 1);
      DrainLevel(k1, x);
      WakeLevel(k, s, x);
      Regroup3(Level(k.pcb, k.ready, x), Level(k.pcb, [w[0]], x), Level(k.pcb, w[1..], x));
    }
  }

  lemma WakeLevel(k: Kernel, s: int, x: int)
    requires Base(k) && Waiters(k.asl, s) != [] && Waiters(k.asl, s)[0] < |k.pcb|
    ensures var w := Waiters(k.asl, s);
            && Waiters(Wake(k, s).asl, s) == w[1..]
            && Level(k.pcb, Wake(k, s).ready, x) == Level(k.pcb, k.ready, x) + Level(k.pcb, [w[0]], x)
            && Level(k.pcb, w, x) == Level(k.pcb, [w[0]], x) + Level(k.pcb, w[1..], x)
  {
    var w := Waiters(k.asl, s);
    WakeQueue(k, s, s);
    LevelInsert(k.pcb, k.ready, w[0], x);
    HeadLevel(k.pcb, w, x);
  }

  /** What the tick lines up: the drained queue, with the interrupted process behind its equals. */
  function Ticked(k: Kernel): seq<nat>
    requires Base(k) && SoftOk(k)
  {
    DrainBase(k);
    DrainFrame(k);
    if k.curr.Some? then InsertProcQ(k.pcb, Drain(k).ready, k.curr.value) else Drain(k).ready
  }

  lemma TickLineup(k: Kernel, t: int)
    requires Inv(k)
    ensures Lineup(Tick(k, t), true) == Ticked(k) && Tick(k, t).pcb == k.pcb
  {
    DrainBase(k);
    DrainFrame(k);
    var k1 := Drain(k);
    var k2 := k1.(sem := k1.sem[DevAddr(k.devs, NSUPPSEM) := 0]);
    DispatchLineup(if k2.curr.Some? then MakeReady(k2, k2.curr.value) else k2, t);
  }

  lemma TickLevel(k: Kernel, x: int)
    requires Base(k) && SoftOk(k)
    ensures Level(k.pcb, Ticked(k), x) == Level(k.pcb, k.ready, x) + Level(k.pcb, Newcomers(k, It), x)
  {
    DrainBase(k);
    DrainFrame(k);
    DrainLevel(k, x);
    var r, w := Drain(k).ready, Waiters(k.asl, DevAddr(k.devs, NSUPPSEM));
    Requeued(k.pcb, k.ready, r, w, k, x);
    NewAtTick(k);
  }

  lemma NewAtTick(k: Kernel)
    ensures Newcomers(k, It) == Waiters(k.asl, DevAddr(k.devs, NSUPPSEM)) + Current(k)
  {
  }

  lemma Requeued(pcb: seq<Pcb>, ready: seq<nat>, r: seq<nat>, w: seq<nat>, k: Kernel, x: int)
    requires ReadySorted(pcb, r) && (k.curr.Some? ==> k.curr.value < |pcb|)
    requires Level(pcb, r, x) == Level(pcb, ready, x) + Level(pcb, w, x)
    ensures Level(pcb, if k.curr.Some? then InsertProcQ(pcb, r, k.curr.value) else r, x) ==
            Level(pcb, ready, x) + Level(pcb, w + Current(k), x)
  {
    LevelConcat(pcb, w, Current(k), x);
    Regroup3(Level(pcb, ready, x), Level(pcb, w, x), Level(pcb, Current(k), x));
    if k.curr.Some? {
      LevelInsert(pcb, r, k.curr.value, x);
    }
  }

  lemma TickLined(k: Kernel, t: int)
    requires Inv(k)
    ensures Lined(k, Tick(k, t), true, {}, Newcomers(k, It))
  {
    TickLineup(k, t);
    forall x
      ensures Level(k.pcb, Ticked(k), x) == Level(k.pcb, k.ready, x) + Level(k.pcb, Newcomers(k, It), x)
    {
      TickLevel(k, x);
    }
    LinedUp(k, Tick(k, t), true, Ticked(k), Newcomers(k, It));
  }

  lemma CreateLined(k: Kernel, prio: int, support: int)
    requires Inv(k) && k.curr.Some?
    ensures Lined(k, Create(k, prio, support), false, {}, First(k.free))
  {
    var k' := Create(k, prio, support);
    if k.free == [] {
      NobodyNew(k, k', false);
    } else {
      var p := k.free[0];
      assert p in k.free;
      PlaceOf(k, p);
      CreateLevel(k, k.pcb[p := k'.pcb[p]], k', p);
    }
  }

  lemma CreateLevel(k: Kernel, pcb: seq<Pcb>, k': Kernel, p: nat)
    requires ReadySorted(k.pcb, k.ready) && p < |k.pcb| == |k'.pcb| && p !in k.ready && pcb == k.pcb[p := k'.pcb[p]]
    requires forall q :: 0 <= q < |k.pcb| ==> k'.pcb[q].prio == pcb[q].prio
    requires k'.ready == InsertProcQ(pcb, k.ready, p)
    ensures Lined(k, k', false, {}, [p])
  {
    PriosFrame(k.pcb, pcb, k.ready);
    forall x
      ensures Level(k'.pcb, k'.ready, x) == Level(k.pcb, k.ready, x) + Level(k'.pcb, [p], x)
    {
      LevelInsert(pcb, k.ready, p, x);
      LevelFrame(k.pcb, pcb, k.ready, x);
      LevelFrame(pcb, k'.pcb, k'.ready, x);
      LevelFrame(pcb, k'.pcb, [p], x);
    }
    LinedUp(k, k', false, k'.ready, [p]);
  }

  lemma KillLined(k: Kernel, p: nat, t: int)
    requires Inv(k) && k.curr.Some? && Live(k.pcb, k.free, p) && KillOk(k, p)
    ensures Lined(k, Dispatch(TerminateProcess(k, p), t), true, Descendants(k.pcb, k.free, p), [])
  {
    SubtreeTermination(k, p);
    GoneLined(k, TerminateProcess(k, p), Descendants(k.pcb, k.free, p), t);
  }

  lemma GoneLined(k: Kernel, k1: Kernel, d: set<nat>, t: int)
    requires Gone(k, k1, d) && k.curr.Some? && k.curr.value in d
    ensures Lined(k, Dispatch(k1, t), true, d, [])
  {
    DispatchLineup(k1, t);
    forall x
      ensures Level(k1.pcb, k1.ready, x) == Without(Level(k.pcb, k.ready, x), d) + []
    {
      LevelFrame(k.pcb, k1.pcb, k1.ready, x);
      LevelWithout(k.pcb, k.ready, d, x);
    }
  }

  // ---------------------------------------------------------------- one step

  lemma WaitLined(k: Kernel, m: Moment)
    requires Inv(k) && k.mode == Mode.Running && (m.e.NSys3? || m.e.NSys5? || m.e.NSys7? || m.e.NSys10?)
    ensures Lined(k, HandleWait(k, m), Dispatches(k, m.e), {}, Newcomers(k, m.e))
  {
    match m.e
    case NSys3(a) => PasserenLined(k, a, m.t, m.t');
    case NSys5(a1) => SoftWaitLined(k, SemIndex(a1), m.t, m.t');
    case NSys7 => SoftWaitLined(k, NSUPPSEM, m.t, m.t');
    case NSys10 => YieldLined(k, m.t, m.t');
  }

  lemma ReadLined(k: Kernel, m: Moment)
    requires Inv(k) && k.mode == Mode.Running && (m.e.NSys6? || m.e.NSys8? || m.e.NSys9?)
    ensures Lined(k, HandleRead(k, m), false, {}, [])
  {
    var k' := HandleRead(k, m);
    assert k'.ready == k.ready && SamePrios(k, k');
    NobodyNew(k, k', false);
  }

  lemma InterruptLined(k: Kernel, m: Moment)
    requires Inv(k) && Enabled(k, m) && (m.e.Plt? || m.e.It? || m.e.Dev?)
    ensures Lined(k, HandleInterrupt(k, m), Dispatches(k, m.e), {}, Newcomers(k, m.e))
  {
    if m.e.Dev? {
      DeviceLined(k, m);
    } else {
      TimerLined(k, m);
    }
  }

  lemma TimerLined(k: Kernel, m: Moment)
    requires Inv(k) && (m.e.Plt? || m.e.It?) && (m.e.Plt? ==> k.curr.Some?)
    ensures Lined(k, HandleInterrupt(k, m), true, {}, Newcomers(k, m.e))
  {
    if m.e.Plt? {
      LocalTimerLined(k, m.t, m.t');
      NewAtPlt(k);
    } else {
      TickLined(k, m.t');
    }
  }

  lemma NewAtPlt(k: Kernel)
    ensures Newcomers(k, Plt) == Current(k) && Newcomers(k, NSys10) == Current(k)
  {
  }

  lemma ProcessLined(k: Kernel, m: Moment)
    requires Inv(k) && k.mode == Mode.Running && Guard(k, m.e)
    requires m.e.NSys1? || m.e.NSys2? || m.e.NSys4? || m.e.Trap?
    ensures Lined(k, HandleProcess(k, m), Dispatches(k, m.e), Victims(k, m.e), Newcomers(k, m.e))
  {
    if m.e.NSys1? {
      CreateLined(k, m.e.prio, m.e.support);
    } else if m.e.NSys4? {
      VerhogenLined(k, m.e.a);
    } else if Target(k, m.e).Some? {
      PlaceOf(k, k.curr.value);
      KillLined(k, Target(k, m.e).value, m.t');
    } else {
      SparedLined(k, m);
    }
  }

  lemma SparedLined(k: Kernel, m: Moment)
    requires Inv(k) && k.mode == Mode.Running && (m.e.NSys2? || m.e.Trap?) && Target(k, m.e).None?
    ensures Lined(k, HandleProcess(k, m), false, {}, [])
  {
    var k' := HandleProcess(k, m);
    assert k'.ready == k.ready && SamePrios(k, k');
    NobodyNew(k, k', false);
  }

  lemma HandleLined(k: Kernel, m: Moment)
    requires Inv(k) && Enabled(k, m) && Guard(k, m.e)
    ensures Lined(k, Handle(k, m), Dispatches(k, m.e), Victims(k, m.e), Newcomers(k, m.e))
  {
    if m.e.Plt? || m.e.It? || m.e.Dev? {
      InterruptLined(k, m);
    } else if m.e.NSys6? || m.e.NSys8? || m.e.NSys9? {
      ReadLined(k, m);
    } else if m.e.NSys1? || m.e.NSys2? || m.e.NSys4? || m.e.Trap? {
      ProcessLined(k, m);
    } else {
      WaitLined(k, m);
    }
  }

  /** Stable order: whatever the event, within each priority those still waiting for the processor,
      the one just dispatched in front, are those who waited, less the terminated, in the same order,
      followed by those who became ready, in that order. */
  lemma ReadyStep(k: Kernel, m: Moment, x: int)
    requires Inv(k) && Enabled(k, m) && Guard(k, m.e)
    ensures Level(Step(k, m).pcb, Lineup(Step(k, m), Dispatches(k, m.e)), x) ==
            Without(Level(k.pcb, k.ready, x), Victims(k, m.e)) + Level(Step(k, m).pcb, Newcomers(k, m.e), x)
  {
    HandleLined(k, m);
    assert Lineup(Step(k, m), Dispatches(k, m.e)) == Lineup(Handle(k, m), Dispatches(k, m.e));
  }

  /** A yielder does not run next if anybody was ready: the old head does, the rest keeps its order,
      and the yielder is behind everybody of its own priority. */
  lemma YieldRunsOther(k: Kernel, t: int, t': int)
    requires Inv(k) && k.curr.Some?
    ensures var k' := Yield(k, t, t');
            if k.ready == [] then k'.curr == k.curr && k'.ready == []
            else k'.curr == Some(k.ready[0]) && k'.curr != k.curr &&
                 forall x :: Level(k'.pcb, k'.ready, x) == Level(k.pcb, k.ready[1..], x) + Level(k.pcb, [k.curr.value], x)
    ensures ReadySorted(Yield(k, t, t').pcb, Yield(k, t, t').ready)
  {
    YieldInv(k, t, t');
    if k.ready != [] {
      YieldHead(k, t, t');
      forall x
        ensures var k' := Yield(k, t, t');
                Level(k'.pcb, k'.ready, x) == Level(k.pcb, k.ready[1..], x) + Level(k.pcb, [k.curr.value], x)
      {
        YieldRest(k, t, t', x);
      }
    }
  }

  lemma YieldHead(k: Kernel, t: int, t': int)
    requires Inv(k) && k.curr.Some? && k.ready != []
    ensures InRange(k.ready[1..], |k.pcb|) && k.ready[0] != k.curr.value
    ensures Yield(k, t, t').curr == Some(k.ready[0]) && Yield(k, t, t').pcb == Charge(k, t).pcb
    ensures Yield(k, t, t').ready == InsertProcQ(Charge(k, t).pcb, k.ready[1..], k.curr.value)
  {
    YieldLineup(k, t, t');
    PlaceOf(k, k.curr.value);
    assert k.ready[0] in k.ready;
  }

  lemma YieldRest(k: Kernel, t: int, t': int, x: int)
    requires Inv(k) && k.curr.Some? && k.ready != []
    ensures var k' := Yield(k, t, t');
            Level(k'.pcb, k'.ready, x) == Level(k.pcb, k.ready[1..], x) + Level(k.pcb, [k.curr.value], x)
  {
    YieldHead(k, t, t');
    ChargeBase(k, t);
    var k1 := Charge(k, t);
    TailSorted(k1.pcb, k.ready);
    LevelInsert(k1.pcb, k.ready[1..], k.curr.value, x);
    LevelFrame(k.pcb, k1.pcb, k.ready[1..], x);
    LevelFrame(k.pcb, k1.pcb, [k.curr.value], x);
  }

  // ---------------------------------------------------------------- the highest priority runs

  /** The lineup stays in descending order when priorities stay. */
  lemma SortedFrame(pcb: seq<Pcb>, pcb': seq<Pcb>, q: seq<nat>)
    requires ReadySorted(pcb, q) && |pcb'| == |pcb| && forall y :: 0 <= y < |pcb| ==> pcb'[y].prio == pcb[y].prio
    ensures ReadySorted(pcb', q)
  {
    PriosFrame(pcb, pcb', q);
  }

  lemma WaitSorted(k: Kernel, m: Moment)
    requires Inv(k) && k.mode == Mode.Running && (m.e.NSys3? || m.e.NSys5? || m.e.NSys7?) && Dispatches(k, m.e)
    ensures ReadySorted(HandleWait(k, m).pcb, Lineup(HandleWait(k, m), true))
  {
    match m.e
    case NSys3(a) => BlockSorted(k, Charge(k, m.t), a, m.t');
    case NSys5(a1) => SoftSorted(k, SemIndex(a1), m.t, m.t');
    case NSys7 => SoftSorted(k, NSUPPSEM, m.t, m.t');
  }

  lemma SoftSorted(k: Kernel, i: int, t: int, t': int)
    requires Base(k) && k.curr.Some?
    ensures ReadySorted(SoftWait(k, i, t, t').pcb, Lineup(SoftWait(k, i, t, t'), true))
  {
    var k1 := Charge(k, t);
    BlockSorted(k, k1.(softBlock := k1.softBlock + 1), DevAddr(k.devs, i), t');
  }

  lemma BlockSorted(k: Kernel, k1: Kernel, key: int, t: int)
    requires Base(k) && Wf(k1) && k1.curr.Some? && SamePrios(k, k1) && k1.ready == k.ready
    ensures ReadySorted(Dispatch(Block(k1, key), t).pcb, Lineup(Dispatch(Block(k1, key), t), true))
  {
    DispatchLineup(Block(k1, key), t);
    SortedFrame(k.pcb, Block(k1, key).pcb, k.ready);
  }

  lemma InterruptSorted(k: Kernel, m: Moment)
    requires Inv(k) && Enabled(k, m) && (m.e.Plt? || m.e.It? || m.e.Dev?) && Dispatches(k, m.e)
    ensures ReadySorted(HandleInterrupt(k, m).pcb, Lineup(HandleInterrupt(k, m), true))
  {
    match m.e
    case Plt => LocalTimerSorted(k, m.t, m.t');
    case It => TickSorted(k, m.t');
    case Dev(line, pending, recv, transm, status) => DeviceSorted(k, m);
  }

  lemma LocalTimerSorted(k: Kernel, t: int, t': int)
    requires Base(k) && k.curr.Some?
    ensures ReadySorted(LocalTimer(k, t, t').pcb, Lineup(LocalTimer(k, t, t'), true))
  {
    ChargeBase(k, t);
    var k1 := Charge(k, t);
    DispatchLineup(MakeReady(k1, k.curr.value), t');
    InsertSorted(k1.pcb, k1.ready, k.curr.value);
  }

  lemma TickSorted(k: Kernel, t: int)
    requires Inv(k)
    ensures ReadySorted(Tick(k, t).pcb, Lineup(Tick(k, t), true))
  {
    TickLineup(k, t);
    TickedSorted(k);
  }

  lemma TickedSorted(k: Kernel)
    requires Base(k) && SoftOk(k)
    ensures ReadySorted(k.pcb, Ticked(k))
  {
    DrainBase(k);
    DrainFrame(k);
    if k.curr.Some? {
      InsertSorted(k.pcb, Drain(k).ready, k.curr.value);
    }
  }

  lemma DeviceSorted(k: Kernel, m: Moment)
    requires Base(k) && m.e.Dev? && k.curr.None?
    ensures var k' := Device(k, m.e.line, m.e.pending, m.e.recv, m.e.transm, m.e.status, m.t');
            ReadySorted(k'.pcb, Lineup(k', true))
  {
    var s := Interrupting(m.e.line, m.e.pending, m.e.recv, m.e.transm, m.e.status);
    if s.Some? {
      SignalSorted(k, s.value.0, s.value.1);
      ResumeLineup(Signal(k, s.value.0, s.value.1), true, m.t');
    } else {
      ResumeLineup(k, true, m.t');
    }
  }

  lemma SignalSorted(k: Kernel, i: int, status: int)
    requires Base(k)
    ensures ReadySorted(Signal(k, i, status).pcb, Signal(k, i, status).ready) && Signal(k, i, status).curr == k.curr
  {
    SignalLined(k, i, status);
    var w := Waiters(k.asl, DevAddr(k.devs, i));
    if w != [] {
      InsertSorted(k.pcb, k.ready, w[0]);
    }
    SortedFrame(k.pcb, Signal(k, i, status).pcb, Signal(k, i, status).ready);
  }

  lemma KillSorted(k: Kernel, p: nat, t: int)
    requires Inv(k) && k.curr.Some? && Live(k.pcb, k.free, p) && KillOk(k, p)
    ensures ReadySorted(Dispatch(TerminateProcess(k, p), t).pcb, Lineup(Dispatch(TerminateProcess(k, p), t), true))
  {
    TerminateBase(k, p);
    SubtreeTermination(k, p);
    DispatchLineup(TerminateProcess(k, p), t);
  }

  lemma KillerSorted(k: Kernel, m: Moment)
    requires Inv(k) && k.mode == Mode.Running && (m.e.NSys2? || m.e.Trap?) && Guard(k, m.e) && Target(k, m.e).Some?
    ensures ReadySorted(HandleProcess(k, m).pcb, Lineup(HandleProcess(k, m), true))
  {
    PlaceOf(k, k.curr.value);
    KillSorted(k, Target(k, m.e).value, m.t');
  }

  lemma HandleSorted(k: Kernel, m: Moment)
    requires Inv(k) && Enabled(k, m) && Guard(k, m.e) && Dispatches(k, m.e) && !m.e.NSys10?
    ensures ReadySorted(Handle(k, m).pcb, Lineup(Handle(k, m), true))
  {
    if m.e.Plt? || m.e.It? || m.e.Dev? {
      InterruptSorted(k, m);
    } else if m.e.NSys2? || m.e.Trap? {
      KillerSorted(k, m);
    } else {
      WaitSorted(k, m);
    }
  }

  /** Whatever event ends in dispatch, the process dispatched has the highest priority of all that
      were ready, NSYS10 apart, which passes over its own caller: see YieldRunsOther. */
  lemma HighestRuns(k: Kernel, m: Moment)
    requires Inv(k) && Enabled(k, m) && Guard(k, m.e) && Dispatches(k, m.e) && !m.e.NSys10?
    ensures ReadySorted(Step(k, m).pcb, Lineup(Step(k, m), true))
  {
    HandleSorted(k, m);
    assert Lineup(Step(k, m), true) == Lineup(Handle(k, m), true);
  }

  // ---------------------------------------------------------------- whole runs

  /** The processes of priority `x` dispatched by the event. */
  function Chosen(k: Kernel, m: Moment, x: int): seq<nat>
    requires Inv(k) && Enabled(k, m)
  {
    if Dispatches(k, m.e) then Level(Step(k, m).pcb, Current(Step(k, m)), x) else []
  }

  /** Those of priority `x` that the event makes ready. */
  function Arrived(k: Kernel, m: Moment, x: int): seq<nat>
    requires Inv(k) && Enabled(k, m)
  {
    Level(Step(k, m).pcb, Newcomers(k, m.e), x)
  }

  ghost function Chosens(k: Kernel, ms: seq<Moment>, x: int): seq<nat>
    requires Inv(k) && Guarded(k, ms)
    decreases |ms|
  {
    if ms == [] then []
    else
      StepInv(k, ms[0]);
      Chosen(k, ms[0], x) + Chosens(Step(k, ms[0]), ms[1..], x)
  }

  ghost function Arrivals(k: Kernel, ms: seq<Moment>, x: int): seq<nat>
    requires Inv(k) && Guarded(k, ms)
    decreases |ms|
  {
    if ms == [] then []
    else
      StepInv(k, ms[0]);
      Arrived(k, ms[0], x) + Arrivals(Step(k, ms[0]), ms[1..], x)
  }

  /** How many processes of priority `x` are terminated while ready. */
  ghost function KilledReady(k: Kernel, ms: seq<Moment>, x: int): nat
    requires Inv(k) && Guarded(k, ms)
    decreases |ms|
  {
    if ms == [] then 0
    else
      StepInv(k, ms[0]);
      WithoutLength(Level(k.pcb, k.ready, x), Victims(k, ms[0].e));
      |Level(k.pcb, k.ready, x)| - |Without(Level(k.pcb, k.ready, x), Victims(k, ms[0].e))| +
      KilledReady(Step(k, ms[0]), ms[1..], x)
  }

  function Lane(k: Kernel, x: int): seq<nat> { Level(k.pcb, k.ready, x) }

  lemma ReadySplit(k: Kernel, m: Moment, x: int)
    requires Inv(k) && Enabled(k, m) && Guard(k, m.e)
    ensures Chosen(k, m, x) + Lane(Step(k, m), x) == Without(Lane(k, x), Victims(k, m.e)) + Arrived(k, m, x)
  {
    ReadyStep(k, m, x);
    var k' := Step(k, m);
    LevelConcat(k'.pcb, if Dispatches(k, m.e) then Current(k') else [], k'.ready, x);
  }

  /** One step put in front of a run in which the order held. */
  lemma OrderStep(c: seq<nat>, w: seq<nat>, w': seq<nat>, d: set<nat>, n: seq<nat>, cs: seq<nat>, r: seq<nat>, ns: seq<nat>)
    requires c + w' == Without(w, d) + n && Subseq(cs + r, w' + ns)
    ensures Subseq((c + cs) + r, w + (n + ns))
  {
    SubseqFront(c, cs + r, w' + ns);
    Regroup3(c, cs, r);
    Regroup3(c, w', ns);
    Regroup3(Without(w, d), n, ns);
    SubseqWithout((c + cs) + r, w, d, n + ns);
  }

  lemma {:induction false} SubseqFront(c: seq<nat>, x: seq<nat>, y: seq<nat>)
    requires Subseq(x, y)
    ensures Subseq(c + x, c + y)
  {
    if c == [] {
      assert c + x == x && c + y == y;
    } else {
      SubseqFront(c[1..], x, y);
      assert c + x == [c[0]] + (c[1..] + x) && c + y == [c[0]] + (c[1..] + y);
      SubseqHead(c[0], c[1..] + x, c[1..] + y);
    }
  }

  /** First come, first served for the processor: over any run, within each priority, those
      dispatched followed by those still ready are those who were ready followed by those who became
      so, in that order, but for the ones terminated while ready. */
  lemma {:induction false} ReadyFifo(k: Kernel, ms: seq<Moment>, x: int)
    requires Inv(k) && Guarded(k, ms)
    ensures Subseq(Chosens(k, ms, x) + Lane(Run(k, ms), x), Lane(k, x) + Arrivals(k, ms, x))
    ensures |Chosens(k, ms, x)| + |Lane(Run(k, ms), x)| + KilledReady(k, ms, x) ==
            |Lane(k, x)| + |Arrivals(k, ms, x)|
    decreases |ms|
  {
    if ms == [] {
      SubseqSelf(Lane(k, x));
      assert Lane(k, x) + [] == Lane(k, x) && [] + Lane(k, x) == Lane(k, x);
    } else {
      var m, rest := ms[0], ms[1..];
      StepInv(k, m);
      var k1 := Step(k, m);
      ReadyFifo(k1, rest, x);
      ReadySplit(k, m, x);
      OrderStep(Chosen(k, m, x), Lane(k, x), Lane(k1, x), Victims(k, m.e), Arrived(k, m, x),
                Chosens(k1, rest, x), Lane(Run(k1, rest), x), Arrivals(k1, rest, x));
      SplitLength(Chosen(k, m, x), Lane(k1, x), Without(Lane(k, x), Victims(k, m.e)), Arrived(k, m, x));
    }
  }

  lemma SplitLength(a: seq<nat>, b: seq<nat>, c: seq<nat>, d: seq<nat>)
    requires a + b == c + d
    ensures |a| + |b| == |c| + |d|
  {
    assert |a + b| == |c + d|;
  }

  /** If no process of priority `x` is terminated while ready, they are dispatched in exactly the
      order in which they became ready. */
  lemma ReadyFifoExact(k: Kernel, ms: seq<Moment>, x: int)
    requires Inv(k) && Guarded(k, ms) && KilledReady(k, ms, x) == 0
    ensures Chosens(k, ms, x) + Lane(Run(k, ms), x) == Lane(k, x) + Arrivals(k, ms, x)
  {
    ReadyFifo(k, ms, x);
    SubseqLength(Chosens(k, ms, x) + Lane(Run(k, ms), x), Lane(k, x) + Arrivals(k, ms, x));
  }
}
