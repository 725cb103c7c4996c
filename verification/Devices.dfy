/** DOIO and the device interrupts: the two address computations are inverse to each other, and
    a process waiting for a device is resumed by that device alone. */
module Devices {
  import opened Queues
  import opened NucleusSpec
  import opened Invariant
  import opened Handlers
  import opened Subtree
  import opened Runs
  import opened Semaphores

  /** The command register of a device, or of one half of a terminal, as in phase3's
      getFlashRegister and the register layout of deviceInterruptHandler: 0x80 bytes a line, 0x10 a
      device, the registers beginning at 0x10000054. */
  function CommandReg(line: int, devNo: nat, transmit: bool): int {
    0x10000054 + (line - 3) * 0x80 + devNo * 0x10 + if transmit then 0xC else 0x4
  }

  predicate IsSubDevice(line: int, devNo: nat, transmit: bool) {
    3 <= line <= 7 && devNo < 8 && (transmit ==> line == 7)
  }

  /** nsys5 computes from a command register the index the interrupt handler will signal; no
      two sub-devices share one and none is the pseudo-clock's. */
  lemma IndexInverse(line: int, devNo: nat, transmit: bool)
    requires IsSubDevice(line, devNo, transmit)
    ensures SemIndex(CommandReg(line, devNo, transmit)) == (line - 3) * 8 + devNo + if transmit then 8 else 0
    ensures 0 <= SemIndex(CommandReg(line, devNo, transmit)) < 48 == NSUPPSEM
  {
    var offset := CommandReg(line, devNo, transmit) - START_DEVREG;
    var reg := (line - 3) * DEVPERINT + devNo;
    var field := if transmit then 0xC else 0x4;
    assert offset == reg * DEVREGSIZE + field;
    assert Quot(offset, DEVREGSIZE) == reg && Rem(offset, DEVREGSIZE) == field;
    assert Quot(reg, DEVPERINT) == line - 3 && Rem(reg, DEVPERINT) == devNo;
  }

  /** nsys5 on any address at all: its distance from 0x10000054 in registers of 16 bytes, toward zero,
      and 8 more for the last word of a register of line 7. It is one of the 49 semaphores exactly for
      the addresses from 15 bytes below the registers to the end of the 49th. */
  lemma IndexEverywhere(a1: int)
    ensures var d := a1 - 0x10000054;
            SemIndex(a1) ==
              if d < 0 then -(-d / 16)
              else d / 16 + if 0x200 <= d < 0x280 && d % 16 == 12 then 8 else 0
    ensures 0 <= SemIndex(a1) < 49 <==> -16 < a1 - 0x10000054 < 49 * 16
  {
    var d := a1 - 0x10000054;
    var reg := Quot(d, 16);
    assert SemIndex(a1) == reg + if Quot(reg, 8) == 4 && Rem(d, 16) == 12 then 8 else 0;
    if d >= 0 {
      assert reg == d / 16 && Rem(d, 16) == d % 16;
      assert reg / 8 == 4 <==> 0x200 <= d < 0x280;
    }
  }

  lemma IndexInjective(l1: int, d1: nat, x1: bool, l2: int, d2: nat, x2: bool)
    requires IsSubDevice(l1, d1, x1) && IsSubDevice(l2, d2, x2)
    requires SemIndex(CommandReg(l1, d1, x1)) == SemIndex(CommandReg(l2, d2, x2))
    ensures l1 == l2 && d1 == d2 && x1 == x2
  {
    IndexInverse(l1, d1, x1);
    IndexInverse(l2, d2, x2);
  }

  /** The interrupt comes from this sub-device: its line, the lowest pending device, and the half of
      the terminal whose status says it is done, transmission first. */
  predicate ComesFrom(e: Event, line: int, devNo: nat, transmit: bool) {
    && e.Dev? && e.line == line && FirstPending(e.pending) == Some(devNo)
    && (line == 7 ==> transmit == (e.transm % 0x100 == 5))
    && (line == 7 && !transmit ==> e.recv % 0x100 == 5)
  }

  /** The status register of the sub-device at the interrupt. */
  function StatusOf(e: Event, transmit: bool): int
    requires e.Dev?
  {
    if e.line != 7 then e.status else if transmit then e.transm else e.recv
  }

  /** An interrupt signals the semaphore of a command register, with the status of its sub-device,
      exactly when it comes from that sub-device. */
  lemma OwnDevice(line: int, devNo: nat, transmit: bool, e: Event)
    requires IsSubDevice(line, devNo, transmit) && e.Dev? && 3 <= e.line <= 7
    ensures var s := Interrupting(e.line, e.pending, e.recv, e.transm, e.status);
            (s.Some? && s.value.0 == SemIndex(CommandReg(line, devNo, transmit))) <==>
              ComesFrom(e, line, devNo, transmit)
    ensures ComesFrom(e, line, devNo, transmit) ==>
              Interrupting(e.line, e.pending, e.recv, e.transm, e.status) ==
                Some((SemIndex(CommandReg(line, devNo, transmit)), StatusOf(e, transmit)))
  {
    IndexInverse(line, devNo, transmit);
    var s := Interrupting(e.line, e.pending, e.recv, e.transm, e.status);
    var d := FirstPending(e.pending);
    if s.Some? {
      var x := e.line == 7 && e.transm % 0x100 == OKCHARTRANS;
      IndexInverse(e.line, d.value, x);
      assert s.value.0 == SemIndex(CommandReg(e.line, d.value, x));
      if s.value.0 == SemIndex(CommandReg(line, devNo, transmit)) {
        IndexInjective(e.line, d.value, x, line, devNo, transmit);
      }
    }
  }

  /** An interrupt that signals anything comes from a sub-device; one that signals nothing comes from
      none. */
  lemma SomeDevice(e: Event)
    requires e.Dev? && 3 <= e.line <= 7
    ensures var s, d := Interrupting(e.line, e.pending, e.recv, e.transm, e.status), FirstPending(e.pending);
            s.Some? ==> d.Some? && var x := e.line == 7 && e.transm % 0x100 == 5;
                                   IsSubDevice(e.line, d.value, x) && ComesFrom(e, e.line, d.value, x)
    ensures Interrupting(e.line, e.pending, e.recv, e.transm, e.status).None? ==>
              forall devNo: nat, x: bool :: IsSubDevice(e.line, devNo, x) ==> !ComesFrom(e, e.line, devNo, x)
  {
  }

  // ---------------------------------------------------------------- being answered

  /** `q` was the oldest waiter of device semaphore `i`, its interrupt came, and the process is
      ready or running with the device's status in a0. */
  ghost predicate AnsweredBy(k: Kernel, m: Moment, k': Kernel, i: int, q: nat) {
    && m.e.Dev? && q < |k'.pcb|
    && var s := Interrupting(m.e.line, m.e.pending, m.e.recv, m.e.transm, m.e.status);
    && s == Some((i, k'.pcb[q].a0))
    && Waiters(k.asl, DevAddr(k.devs, i)) != [] && Waiters(k.asl, DevAddr(k.devs, i))[0] == q
    && (q in k'.ready || k'.curr == Some(q))
  }

  /** The only ways out of a device's queue. */
  lemma IoStep(k: Kernel, m: Moment, i: int, q: nat)
    requires Inv(k) && Enabled(k, m) && Guard(k, m.e) && 0 <= i < NSUPPSEM
    requires q in Waiters(k.asl, DevAddr(k.devs, i))
    ensures || q in Waiters(Step(k, m).asl, DevAddr(k.devs, i))
            || q in Victims(k, m.e)
            || AnsweredBy(k, m, Step(k, m), i, q)
  {
    var a := DevAddr(k.devs, i);
    QueueStep(k, m, a);
    WaysOut(k, m.e, a, q);
    if q !in NextWaiters(k, m.e, a) && q !in Victims(k, m.e) {
      DeviceOnly(k, m.e, a);
      DeviceAnswers(k, m, i);
    }
  }

  /** Read off the reference semantics: a waiter leaves as the oldest, signalled, or as a victim. */
  lemma WaysOut(k: Kernel, e: Event, a: int, q: nat)
    requires Inv(k) && (k.mode == Running || e.It? || e.Dev?) && a != DevAddr(k.devs, NSUPPSEM)
    requires q in Waiters(k.asl, a)
    ensures || q in NextWaiters(k, e, a)
            || q in Victims(k, e)
            || (Signals(k, e, a) && q == Waiters(k.asl, a)[0])
  {
    var w := Waiters(k.asl, a);
    if Joins(k, e, a) && k.curr.Some? {
      assert forall x :: x in w ==> x in w + [k.curr.value];
    } else if Signals(k, e, a) {
      assert w == [w[0]] + w[1..];
    } else if q !in Victims(k, e) {
      WithoutKeeps(w, Victims(k, e), q);
    }
  }

  /** The guard keeps processes from performing V on an awaited device semaphore. */
  lemma DeviceOnly(k: Kernel, e: Event, a: int)
    requires Inv(k) && (k.mode == Running || e.It? || e.Dev?) && Guard(k, e)
    requires Signals(k, e, a) && IsDevice(k.devs, a) && Waiters(k.asl, a) != []
    ensures e.Dev?
  {
  }

  lemma DeviceAnswers(k: Kernel, m: Moment, i: int)
    requires Inv(k) && Enabled(k, m) && m.e.Dev? && 0 <= i < NSUPPSEM
    requires Signals(k, m.e, DevAddr(k.devs, i)) && Waiters(k.asl, DevAddr(k.devs, i)) != []
    ensures AnsweredBy(k, m, Step(k, m), i, Waiters(k.asl, DevAddr(k.devs, i))[0])
  {
    var s := Interrupting(m.e.line, m.e.pending, m.e.recv, m.e.transm, m.e.status);
    assert s.value.0 == i;
    var a := DevAddr(k.devs, i);
    WakeBase(k, a);
    SignalReadies(k, i, s.value.1);
    var k1 := Signal(k, i, s.value.1);
    if k1.curr.None? {
      HeadTail(k1.ready);
    }
    DispatchKeeps(k1, Waiters(k.asl, a)[0], m.t');
    assert Step(k, m).pcb == k1.pcb;
  }

  lemma SignalReadies(k: Kernel, i: int, status: int)
    requires Base(k) && Waiters(k.asl, DevAddr(k.devs, i)) != []
    ensures var q := Waiters(k.asl, DevAddr(k.devs, i))[0];
            var k' := Signal(k, i, status);
            q in k'.ready && q < |k'.pcb| && k'.pcb[q].a0 == status
  {
    var q := Waiters(k.asl, DevAddr(k.devs, i))[0];
    WakeBase(k, DevAddr(k.devs, i));
    assert q in multiset(Signal(k, i, status).ready);
  }

  lemma DispatchKeeps(k: Kernel, q: nat, t: int)
    requires q in k.ready
    ensures q in Resume(k, t).ready || Resume(k, t).curr == Some(q)
  {
    assert k.ready == [k.ready[0]] + k.ready[1..];
  }

  /** Along a run, the first event after which `q` no longer waits is an answer of device
      semaphore `i`, or a termination that includes `q`. */
  ghost predicate Answered(k: Kernel, ms: seq<Moment>, i: int, q: nat)
    requires Inv(k) && Guarded(k, ms)
    decreases |ms|
  {
    ms != [] &&
    (StepInv(k, ms[0]);
     var k' := Step(k, ms[0]);
     if q in Waiters(k'.asl, DevAddr(k.devs, i)) then Answered(k', ms[1..], i, q)
     else AnsweredBy(k, ms[0], k', i, q) || q in Victims(k, ms[0].e))
  }

  /** A process blocked by DOIO leaves its queue in no other way, in any run. */
  lemma {:induction false} IoAnswered(k: Kernel, ms: seq<Moment>, i: int, q: nat)
    requires Inv(k) && Guarded(k, ms) && 0 <= i < NSUPPSEM
    requires q in Waiters(k.asl, DevAddr(k.devs, i))
    ensures q in Waiters(Run(k, ms).asl, DevAddr(k.devs, i)) || Answered(k, ms, i, q)
    decreases |ms|
  {
    if ms != [] {
      StepInv(k, ms[0]);
      IoStep(k, ms[0], i, q);
      if q in Waiters(Step(k, ms[0]).asl, DevAddr(k.devs, i)) {
        IoAnswered(Step(k, ms[0]), ms[1..], i, q);
      }
    }
  }

  // ---------------------------------------------------------------- from the call to its answer

  /** The semaphore of a sub-device. */
  function SemOf(k: Kernel, line: int, devNo: nat, transmit: bool): int {
    DevAddr(k.devs, SemIndex(CommandReg(line, devNo, transmit)))
  }

  /** `q`, the oldest to wait for the sub-device, is ready or running after the sub-device's
      interrupt, with the status it reported in a0. */
  ghost predicate ServedBy(k: Kernel, m: Moment, k': Kernel, line: int, devNo: nat, transmit: bool, q: nat) {
    && ComesFrom(m.e, line, devNo, transmit) && q < |k'.pcb| && k'.pcb[q].a0 == StatusOf(m.e, transmit)
    && Waiters(k.asl, SemOf(k, line, devNo, transmit)) != []
    && Waiters(k.asl, SemOf(k, line, devNo, transmit))[0] == q
    && (q in k'.ready || k'.curr == Some(q))
  }

  /** Along a run, the first event after which `q` no longer waits for the sub-device is that
      sub-device's interrupt, or a termination that includes `q`. */
  ghost predicate Served(k: Kernel, ms: seq<Moment>, line: int, devNo: nat, transmit: bool, q: nat)
    requires Inv(k) && Guarded(k, ms)
    decreases |ms|
  {
    ms != [] &&
    (StepInv(k, ms[0]);
     var k' := Step(k, ms[0]);
     if q in Waiters(k'.asl, SemOf(k, line, devNo, transmit)) then Served(k', ms[1..], line, devNo, transmit, q)
     else ServedBy(k, ms[0], k', line, devNo, transmit, q) || q in Victims(k, ms[0].e))
  }

  lemma AnswerServes(k: Kernel, m: Moment, k': Kernel, line: int, devNo: nat, transmit: bool, q: nat)
    requires IsSubDevice(line, devNo, transmit) && Enabled(k, m)
    requires AnsweredBy(k, m, k', SemIndex(CommandReg(line, devNo, transmit)), q)
    ensures ServedBy(k, m, k', line, devNo, transmit, q)
  {
    OwnDevice(line, devNo, transmit, m.e);
  }

  lemma {:induction false} AnsweredServed(k: Kernel, ms: seq<Moment>, line: int, devNo: nat, transmit: bool, q: nat)
    requires Inv(k) && Guarded(k, ms) && IsSubDevice(line, devNo, transmit)
    requires Answered(k, ms, SemIndex(CommandReg(line, devNo, transmit)), q)
    ensures Served(k, ms, line, devNo, transmit, q)
    decreases |ms|
  {
    StepInv(k, ms[0]);
    var k' := Step(k, ms[0]);
    if q in Waiters(k'.asl, SemOf(k, line, devNo, transmit)) {
      AnsweredServed(k', ms[1..], line, devNo, transmit, q);
    } else if q !in Victims(k, ms[0].e) {
      AnswerServes(k, ms[0], k', line, devNo, transmit, q);
    }
  }

  /** DOIO end to end: a DOIO on a command register keeps the invariant and queues its caller behind
      those already waiting, and in every run from there the caller stays queued until it is
      terminated or the very sub-device it addressed interrupts and answers it. */
  lemma DoioServed(k: Kernel, m: Moment, ms: seq<Moment>, line: int, devNo: nat, transmit: bool)
    requires Inv(k) && Enabled(k, m) && IsSubDevice(line, devNo, transmit)
    requires m.e == NSys5(CommandReg(line, devNo, transmit))
    ensures var a, k1 := SemOf(k, line, devNo, transmit), Step(k, m);
            && Inv(k1) && Waiters(k1.asl, a) == Waiters(k.asl, a) + [k.curr.value]
            && (Guarded(k1, ms) ==>
                  || k.curr.value in Waiters(Run(k1, ms).asl, a)
                  || Served(k1, ms, line, devNo, transmit, k.curr.value))
  {
    var a, k1, q := SemOf(k, line, devNo, transmit), Step(k, m), k.curr.value;
    IndexInverse(line, devNo, transmit);
    StepInv(k, m);
    QueueStep(k, m, a);
    assert Waiters(k1.asl, a)[|Waiters(k.asl, a)|] == q;
    if Guarded(k1, ms) {
      IoAnswered(k1, ms, SemIndex(CommandReg(line, devNo, transmit)), q);
      if q !in Waiters(Run(k1, ms).asl, a) {
        AnsweredServed(k1, ms, line, devNo, transmit, q);
      }
    }
  }
}
