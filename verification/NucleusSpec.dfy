/** The nucleus as a state and the effect of each handler on it. Lists are the sequences of
    PCBs they link, read from the head; a PCB is its index in pcbFree_table. */
module NucleusSpec {
  import opened Queues

  const NULL := 0
  const NOPROC := -1
  const NSUPPSEM := 48
  const NRSEMAPHORES := 49
  const WORDLEN := 4

  /** The fields of a PCB that the nucleus reads; `a0` is the result register the nucleus
      last stored for the process, `support` the address of its support structure. */
  datatype Pcb = Pcb(parent: Option<nat>, child: seq<nat>, semAdd: int, prio: int, pid: nat,
                     time: int, a0: int, support: int)

  /** A descriptor of the active semaphore list. */
  datatype Semd = Semd(key: int, procq: seq<nat>)

  /** What the processor does once a handler has run: a process, or one of the three ways
      dispatch ends with an empty ready queue. */
  datatype Mode = Running | Waiting | Halted | Panicked

  /** `devs` is the address of device_semaphores[0]; `semdFree` the length of semdFree_h;
      `sem` the memory words used as semaphores. */
  datatype Kernel = Kernel(
    devs: int, pcb: seq<Pcb>, free: seq<nat>, nextPid: nat, ready: seq<nat>,
    asl: seq<Semd>, semdFree: nat, curr: Option<nat>, processCount: int, softBlock: int,
    sem: map<int, int>, todStart: int, clock: int, mode: Mode)

  // ---------------------------------------------------------------- active semaphore list

  function Keys(asl: seq<Semd>): set<int> {
    if asl == [] then {} else {asl[0].key} + Keys(asl[1..])
  }

  /** The processes queued on `key`, oldest first. */
  function Waiters(asl: seq<Semd>, key: int): seq<nat> {
    if asl == [] then [] else if asl[0].key == key then asl[0].procq else Waiters(asl[1..], key)
  }

  /** Everybody queued somewhere on the list. */
  function Blocked(asl: seq<Semd>): multiset<nat> {
    if asl == [] then multiset{} else multiset(asl[0].procq) + Blocked(asl[1..])
  }

  /** insertBlocked's effect on the list: append to the descriptor of `key`, or add one. */
  function Enqueue(asl: seq<Semd>, key: int, p: nat): (r: seq<Semd>)
    ensures |asl| <= |r| <= |asl| + 1
  {
    if asl == [] then [Semd(key, [p])]
    else if asl[0].key == key then [Semd(key, asl[0].procq + [p])] + asl[1..]
    else [asl[0]] + Enqueue(asl[1..], key, p)
  }

  /** removeBlocked's effect on the list: drop the oldest waiter, and an emptied descriptor. */
  function Dequeue(asl: seq<Semd>, key: int): (r: seq<Semd>)
    ensures |r| <= |asl| <= |r| + 1
  {
    if asl == [] then []
    else if asl[0].key == key then
      (if |asl[0].procq| <= 1 then [] else [Semd(key, asl[0].procq[1..])]) + asl[1..]
    else [asl[0]] + Dequeue(asl[1..], key)
  }

  /** outBlocked's effect on the list: unlink `p` from the descriptor of its own key. */
  function Unlink(asl: seq<Semd>, key: int, p: nat): (r: seq<Semd>)
    ensures |r| <= |asl| <= |r| + 1
  {
    if asl == [] then []
    else if asl[0].key == key && p in asl[0].procq then
      var q := Remove(asl[0].procq, p);
      (if q == [] then [] else [Semd(key, q)]) + asl[1..]
    else [asl[0]] + Unlink(asl[1..], key, p)
  }

  predicate IsDevice(devs: int, a: int) {
    devs <= a <= devs + WORDLEN * (NRSEMAPHORES - 1)
  }

  function DevAddr(devs: int, i: int): int { devs + WORDLEN * i }

  function Val(k: Kernel, a: int): int { if a in k.sem then k.sem[a] else 0 }

  // ---------------------------------------------------------------- ranges

  predicate InRange(s: seq<nat>, n: nat) { forall q :: q in s ==> q < n }

  predicate AslInRange(asl: seq<Semd>, n: nat) {
    asl == [] || (InRange(asl[0].procq, n) && AslInRange(asl[1..], n))
  }

  predicate TreeWf(pcb: seq<Pcb>) {
    forall q :: 0 <= q < |pcb| ==>
      InRange(pcb[q].child, |pcb|) && (pcb[q].parent.Some? ==> pcb[q].parent.value < |pcb|)
  }

  /** Every link stays inside the PCB table. */
  predicate Wf(k: Kernel) {
    && InRange(k.free, |k.pcb|) && InRange(k.ready, |k.pcb|) && AslInRange(k.asl, |k.pcb|)
    && (k.curr.Some? ==> k.curr.value < |k.pcb|)
    && TreeWf(k.pcb)
  }

  /** No handler moves the PCB table or the device semaphores. */
  predicate SameShape(k: Kernel, r: Kernel) { r.devs == k.devs && |r.pcb| == |k.pcb| }

  // ---------------------------------------------------------------- ready queue, PCB pool

  function Prios(pcb: seq<Pcb>, q: seq<nat>): (r: seq<int>)
    requires InRange(q, |pcb|)
  {
    seq(|q|, i requires 0 <= i < |q| => assert q[i] in q; pcb[q[i]].prio)
  }

  function InsertProcQ(pcb: seq<Pcb>, q: seq<nat>, p: nat): (r: seq<nat>)
    requires InRange(q, |pcb|) && p < |pcb|
    ensures multiset(r) == multiset(q) + multiset{p}
    ensures InRange(r, |pcb|)
  {
    InsertAt(q, Slot(Prios(pcb, q), pcb[p].prio), p)
  }

  function MakeReady(k: Kernel, p: nat): (r: Kernel)
    requires Wf(k) && p < |k.pcb|
    ensures SameShape(k, r)
  {
    k.(ready := InsertProcQ(k.pcb, k.ready, p))
  }

  function Charge(k: Kernel, t: int): (r: Kernel)
    requires Wf(k) && k.curr.Some?
    ensures SameShape(k, r)
  {
    var p := k.curr.value;
    k.(pcb := k.pcb[p := k.pcb[p].(time := k.pcb[p].time + (t - k.todStart))])
  }

  function Reply(k: Kernel, p: nat, v: int): (r: Kernel)
    requires p < |k.pcb|
    ensures SameShape(k, r)
  {
    k.(pcb := k.pcb[p := k.pcb[p].(a0 := v)])
  }

  /** `insertBlocked(key, currProc); currProc = NULL`. With no descriptor left insertBlocked
      changes nothing, and its callers do not look at its result. */
  function Block(k: Kernel, key: int): (r: Kernel)
    requires Wf(k) && k.curr.Some?
    ensures SameShape(k, r)
  {
    var p := k.curr.value;
    var asl := Enqueue(k.asl, key, p);
    if |asl| - |k.asl| > k.semdFree then k.(curr := None)
    else k.(asl := asl, semdFree := k.semdFree - (|asl| - |k.asl|),
            pcb := k.pcb[p := k.pcb[p].(semAdd := key)], curr := None)
  }

  /** `insertProcQ(&readyQueue, removeBlocked(key))` for a key somebody waits on. */
  function Wake(k: Kernel, key: int): (r: Kernel)
    requires Wf(k) && Waiters(k.asl, key) != [] && Waiters(k.asl, key)[0] < |k.pcb|
    ensures SameShape(k, r)
  {
    var asl := Dequeue(k.asl, key);
    k.(asl := asl, semdFree := k.semdFree + (|k.asl| - |asl|),
       ready := InsertProcQ(k.pcb, k.ready, Waiters(k.asl, key)[0]))
  }

  // ---------------------------------------------------------------- process tree

  /** Total length of the child lists: what terminateProcess consumes. */
  function Links(pcb: seq<Pcb>): nat {
    if pcb == [] then 0 else |pcb[0].child| + Links(pcb[1..])
  }

  lemma {:induction false} LinksUpdate(pcb: seq<Pcb>, q: nat, c: Pcb)
    requires q < |pcb|
    ensures Links(pcb[q := c]) == Links(pcb) - |pcb[q].child| + |c.child|
  {
    if q == 0 {
      assert pcb[q := c][1..] == pcb[1..];
    } else {
      assert pcb[q := c][1..] == pcb[1..][q - 1 := c];
      LinksUpdate(pcb[1..], q - 1, c);
    }
  }

  /** removeChild: the first child leaves the list and loses its parent. */
  function RemoveChild(pcb: seq<Pcb>, p: nat): (r: seq<Pcb>)
    requires TreeWf(pcb) && p < |pcb| && pcb[p].child != []
    ensures |r| == |pcb| && TreeWf(r)
    ensures Links(r) < Links(pcb)
  {
    var c := pcb[p].child[0];
    assert c in pcb[p].child;
    assert forall x :: x in pcb[p].child[1..] ==> x in pcb[p].child;
    var r0 := pcb[p := pcb[p].(child := pcb[p].child[1..])];
    LinksUpdate(pcb, p, r0[p]);
    LinksUpdate(r0, c, r0[c].(parent := None));
    r0[c := r0[c].(parent := None)]
  }

  /** outChild: `p` leaves its parent's list. */
  function OutChild(pcb: seq<Pcb>, p: nat): (r: seq<Pcb>)
    requires TreeWf(pcb) && p < |pcb|
    ensures |r| == |pcb| && TreeWf(r)
    ensures Links(r) <= Links(pcb)
  {
    if pcb[p].parent.None? then pcb
    else
      var f := pcb[p].parent.value;
      var r0 := pcb[f := pcb[f].(child := Remove(pcb[f].child, p))];
      LinksUpdate(pcb, f, r0[f]);
      RemoveMembers(pcb[f].child, p);
      LinksUpdate(r0, p, r0[p].(parent := None));
      r0[p := r0[p].(parent := None)]
  }

  lemma {:induction false} RemoveMembers(s: seq<nat>, x: nat)
    ensures forall y :: y in Remove(s, x) ==> y in s
  {
    if s != [] {
      RemoveMembers(s[1..], x);
    }
  }

  /** Take `p` off the processor, its semaphore or the ready queue, as p_semAdd tells. */
  function Leave(k: Kernel, p: nat): (r: Kernel)
    requires p < |k.pcb|
    ensures r.pcb == k.pcb && r.devs == k.devs
  {
    var a := k.pcb[p].semAdd;
    if k.curr == Some(p) then k.(curr := None)
    else if a != NULL then
      var asl := Unlink(k.asl, a, p);
      k.(asl := asl, semdFree := k.semdFree + (|k.asl| - |asl|),
         softBlock := if IsDevice(k.devs, a) then k.softBlock - 1 else k.softBlock)
    else k.(ready := Remove(k.ready, p))
  }

  /** terminateProcess after its loop. */
  function Finish(k: Kernel, p: nat): (r: Kernel)
    requires TreeWf(k.pcb) && p < |k.pcb|
    ensures SameShape(k, r) && TreeWf(r.pcb) && Links(r.pcb) <= Links(k.pcb)
  {
    Leave(k, p).(pcb := OutChild(k.pcb, p), processCount := k.processCount - 1, free := [p] + k.free)
  }

  /** terminateProcess: children first, each detached before it is terminated. */
  function TerminateProcess(k: Kernel, p: nat): (r: Kernel)
    requires TreeWf(k.pcb) && p < |k.pcb|
    ensures SameShape(k, r) && TreeWf(r.pcb) && Links(r.pcb) <= Links(k.pcb)
    decreases Links(k.pcb)
  {
    if k.pcb[p].child == [] then Finish(k, p)
    else
      var c := k.pcb[p].child[0];
      assert c in k.pcb[p].child;
      TerminateProcess(TerminateProcess(k.(pcb := RemoveChild(k.pcb, p)), c), p)
  }

  /** The live PCB with this pid, if there is one. */
  function FindByPid(k: Kernel, pid: int, i: nat := 0): (r: Option<nat>)
    requires i <= |k.pcb|
    ensures r.Some? ==> i <= r.value < |k.pcb| && r.value !in k.free && k.pcb[r.value].pid == pid
    ensures r.None? ==> forall q :: i <= q < |k.pcb| && q !in k.free ==> k.pcb[q].pid != pid
    decreases |k.pcb| - i
  {
    if i == |k.pcb| then None
    else if i !in k.free && k.pcb[i].pid == pid then Some(i)
    else FindByPid(k, pid, i + 1)
  }

  // ---------------------------------------------------------------- scheduler

  function Dispatch(k: Kernel, t: int): (r: Kernel)
    ensures SameShape(k, r)
  {
    if k.ready != [] then
      k.(curr := Some(k.ready[0]), ready := k.ready[1..], todStart := t, mode := Running)
    else if k.processCount == 0 then k.(mode := Halted)
    else if k.softBlock > 0 then k.(mode := Waiting)
    else k.(mode := Panicked)
  }

  /** How a device handler ends: back to the interrupted process, or to the scheduler. */
  function Resume(k: Kernel, t: int): (r: Kernel)
    ensures SameShape(k, r)
  {
    if k.curr.Some? then k else Dispatch(k, t)
  }

  // ---------------------------------------------------------------- system calls

  function Create(k: Kernel, prio: int, support: int): (r: Kernel)
    requires Wf(k) && k.curr.Some?
    ensures SameShape(k, r)
  {
    var c := k.curr.value;
    if k.free == [] then Reply(k, c, NOPROC)
    else
      var p := k.free[0];
      assert p in k.free;
      var pcb := k.pcb[p := Pcb(Some(c), [], NULL, prio, k.nextPid, 0, 0, support)];
      var ready := InsertProcQ(pcb, k.ready, p);
      var pcb1 := pcb[c := pcb[c].(child := [p] + pcb[c].child, a0 := pcb[p].pid)];
      k.(pcb := pcb1, free := k.free[1..], nextPid := k.nextPid + 1, ready := ready,
         processCount := k.processCount + 1)
  }

  function Terminate(k: Kernel, pid: int, t: int): (r: Kernel)
    requires Wf(k) && k.curr.Some?
    ensures SameShape(k, r)
  {
    if pid == 0 then Dispatch(TerminateProcess(k, k.curr.value), t)
    else match FindByPid(k, pid)
      case None => Reply(k, k.curr.value, NOPROC)
      case Some(p) => Dispatch(TerminateProcess(k, p), t)
  }

  function Passeren(k: Kernel, a: int, t: int, t': int): (r: Kernel)
    requires Wf(k) && k.curr.Some?
    ensures SameShape(k, r)
  {
    if Val(k, a) > 0 then k.(sem := k.sem[a := Val(k, a) - 1])
    else Dispatch(Block(Charge(k, t), a), t')
  }

  function Verhogen(k: Kernel, a: int): (r: Kernel)
    requires Wf(k)
    ensures SameShape(k, r)
  {
    WaitersInRange(k.asl, a, |k.pcb|);
    if Waiters(k.asl, a) == [] then k.(sem := k.sem[a := Val(k, a) + 1])
    else
      assert Waiters(k.asl, a)[0] in Waiters(k.asl, a);
      Wake(k, a)
  }

  const START_DEVREG := 0x10000054
  const DEVREGSIZE := 0x10
  const DEVPERINT := 8

  /** C's division and remainder: toward zero. */
  function Quot(a: int, b: nat): int requires b != 0 { if a < 0 then -(-a / b) else a / b }
  function Rem(a: int, b: nat): int requires b != 0 { a - b * Quot(a, b) }

  /** The semaphore nsys5 blocks on, from the address of the command register. */
  function SemIndex(a1: int): int {
    var offset := a1 - START_DEVREG;
    var regIndex := Quot(offset, DEVREGSIZE);
    var lineIndex := Quot(regIndex, DEVPERINT);
    var devNo := Rem(regIndex, DEVPERINT);
    lineIndex * DEVPERINT + devNo +
      (if lineIndex == 4 && Rem(offset, DEVREGSIZE) == 0xC then DEVPERINT else 0)
  }

  /** The common end of nsys5 and nsys7: charge the slice, count the process as soft-blocked
      and block it on device semaphore `i`, whatever that semaphore's value. */
  function SoftWait(k: Kernel, i: int, t: int, t': int): (r: Kernel)
    requires Wf(k) && k.curr.Some?
    ensures SameShape(k, r)
  {
    var k1 := Charge(k, t);
    Dispatch(Block(k1.(softBlock := k1.softBlock + 1), DevAddr(k.devs, i)), t')
  }

  function DoIO(k: Kernel, a1: int, t: int, t': int): (r: Kernel)
    requires Wf(k) && k.curr.Some?
    ensures SameShape(k, r)
  {
    SoftWait(k, SemIndex(a1), t, t')
  }

  function GetTime(k: Kernel, t: int): (r: Kernel)
    requires Wf(k) && k.curr.Some?
    ensures SameShape(k, r)
  {
    var c := k.curr.value;
    Reply(k, c, k.pcb[c].time + (t - k.todStart))
  }

  function WaitClock(k: Kernel, t: int, t': int): (r: Kernel)
    requires Wf(k) && k.curr.Some?
    ensures SameShape(k, r)
  {
    SoftWait(k, NSUPPSEM, t, t')
  }

  function Yield(k: Kernel, t: int, t': int): (r: Kernel)
    requires Wf(k) && k.curr.Some?
    ensures SameShape(k, r)
  {
    var k1 := Charge(k, t);
    if k1.ready == [] then Dispatch(MakeReady(k1, k1.curr.value).(curr := None), t')
    else
      var rest := k1.ready[1..];
      assert forall q :: q in rest ==> q in k1.ready;
      var queue := InsertProcQ(k1.pcb, rest, k1.curr.value);
      Dispatch(k1.(ready := [k1.ready[0]] + queue, curr := None), t')
  }

  /** passUpOrDie: without a support structure the process and its progeny die. */
  function PassUpOrDie(k: Kernel, t: int): (r: Kernel)
    requires Wf(k) && k.curr.Some?
    ensures SameShape(k, r)
  {
    if k.pcb[k.curr.value].support != NULL then k else Terminate(k, 0, t)
  }

  // ---------------------------------------------------------------- interrupts

  const OKCHARTRANS := 5
  const CHARRECV := 5

  /** The lowest-numbered device of a line whose bit is set in the interrupt bitmap. */
  function FirstPending(pending: set<nat>, i: nat := 0): (r: Option<nat>)
    requires i <= DEVPERINT
    ensures r.Some? ==> i <= r.value < DEVPERINT && r.value in pending
    ensures forall d :: i <= d < (if r.Some? then r.value else DEVPERINT) ==> d !in pending
    decreases DEVPERINT - i
  {
    if i == DEVPERINT then None else if i in pending then Some(i) else FirstPending(pending, i + 1)
  }

  /** The semaphore deviceInterruptHandler signals and the status it delivers, if any. A
      terminal that completed a transmission goes before one that received. */
  function Interrupting(line: int, pending: set<nat>, recv: int, transm: int, status: int): Option<(int, int)> {
    match FirstPending(pending)
    case None => None
    case Some(devNo) =>
      var i := (line - 3) * DEVPERINT + devNo;
      if line != 7 then Some((i, status))
      else if transm % 0x100 == OKCHARTRANS then Some((i + DEVPERINT, transm))
      else if recv % 0x100 == CHARRECV then Some((i, recv))
      else None
  }

  /** The V of a device interrupt. */
  function Signal(k: Kernel, i: int, status: int): (r: Kernel)
    requires Wf(k)
    ensures SameShape(k, r)
  {
    var a := DevAddr(k.devs, i);
    WaitersInRange(k.asl, a, |k.pcb|);
    if Waiters(k.asl, a) == [] then k.(sem := k.sem[a := Val(k, a) + 1])
    else
      var p := Waiters(k.asl, a)[0];
      assert p in Waiters(k.asl, a);
      Reply(Wake(k, a).(softBlock := k.softBlock - 1), p, status)
  }

  function Device(k: Kernel, line: int, pending: set<nat>, recv: int, transm: int, status: int, t: int): (r: Kernel)
    requires Wf(k)
    ensures SameShape(k, r)
  {
    match Interrupting(line, pending, recv, transm, status)
    case None => Resume(k, t)
    case Some((i, st)) => Resume(Signal(k, i, st), t)
  }

  function Tick(k: Kernel, t: int): (r: Kernel)
    requires Wf(k)
    ensures SameShape(k, r)
  {
    var k1 := Drain(k);
    var k2 := k1.(sem := k1.sem[DevAddr(k.devs, NSUPPSEM) := 0]);
    if k2.curr.Some? then Dispatch(MakeReady(k2, k2.curr.value), t) else Dispatch(k2, t)
  }

  function LocalTimer(k: Kernel, t: int, t': int): (r: Kernel)
    requires Wf(k) && k.curr.Some?
    ensures SameShape(k, r)
  {
    var k1 := Charge(k, t);
    Dispatch(MakeReady(k1, k1.curr.value), t')
  }

  /** The loop of itInterruptHandler: wake everybody waiting for the tick. */
  function Drain(k: Kernel): (r: Kernel)
    requires Wf(k)
    ensures Wf(r) && SameShape(k, r)
    decreases |Blocked(k.asl)|
  {
    var key := DevAddr(k.devs, NSUPPSEM);
    if Waiters(k.asl, key) == [] then k
    else
      WaitersInRange(k.asl, key, |k.pcb|);
      assert Waiters(k.asl, key)[0] in Waiters(k.asl, key);
      DequeueInRange(k.asl, key, |k.pcb|);
      DequeueBlocked(k.asl, key);
      Drain(Wake(k, key).(softBlock := k.softBlock - 1))
  }

  lemma {:induction false} WaitersInRange(asl: seq<Semd>, key: int, n: nat)
    requires AslInRange(asl, n)
    ensures InRange(Waiters(asl, key), n)
  {
    if asl != [] && asl[0].key != key {
      WaitersInRange(asl[1..], key, n);
    }
  }

  lemma {:induction false} DequeueInRange(asl: seq<Semd>, key: int, n: nat)
    requires AslInRange(asl, n)
    ensures AslInRange(Dequeue(asl, key), n)
  {
    if asl != [] {
      var r := Dequeue(asl, key);
      if asl[0].key != key {
        assert r[1..] == Dequeue(asl[1..], key);
        DequeueInRange(asl[1..], key, n);
      } else if |asl[0].procq| <= 1 {
        assert r == asl[1..];
      } else {
        HeadTail(asl[0].procq);
        assert r[1..] == asl[1..];
      }
    }
  }

  /** removeBlocked takes exactly the oldest waiter out. */
  lemma {:induction false} DequeueBlocked(asl: seq<Semd>, key: int)
    requires Waiters(asl, key) != []
    ensures Blocked(asl) == Blocked(Dequeue(asl, key)) + multiset{Waiters(asl, key)[0]}
  {
    if asl[0].key != key {
      assert Dequeue(asl, key)[1..] == Dequeue(asl[1..], key);
      DequeueBlocked(asl[1..], key);
    } else {
      DequeueHere(asl, key);
    }
  }

  lemma DequeueHere(asl: seq<Semd>, key: int)
    requires asl != [] && asl[0].key == key && asl[0].procq != []
    ensures Blocked(asl) == Blocked(Dequeue(asl, key)) + multiset{asl[0].procq[0]}
  {
    var s := asl[0];
    var r := Dequeue(asl, key);
    HeadTail(s.procq);
    if |s.procq| == 1 {
      assert r == asl[1..];
    } else {
      assert r[0] == Semd(key, s.procq[1..]) && r[1..] == asl[1..];
    }
  }
}
