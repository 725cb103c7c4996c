/** The nucleus with its globals as fields and its loops as loops; every method is proved to
    do to the state what the specification functions say. */
module Machine {
  import opened Queues
  import opened NucleusSpec
  import opened Invariant
  import opened Handlers
  import opened Subtree
  import opened Termination
  import opened Runs

  lemma CleanTermination(k: Kernel, p: nat)
    requires TreeWf(k.pcb) && p < |k.pcb|
    ensures Base(k) && Live(k.pcb, k.free, p) && ReadyClean(k, Descendants(k.pcb, k.free, p)) ==>
              Gone(k, NucleusSpec.TerminateProcess(k, p), Descendants(k.pcb, k.free, p))
  {
    if Base(k) && Live(k.pcb, k.free, p) && ReadyClean(k, Descendants(k.pcb, k.free, p)) {
      SubtreeTermination(k, p);
    }
  }

  // ---------------------------------------------------------------- loop lemmas

  /** Taking the first descriptor off the front and putting it back. */
  lemma SkipFront(asl: seq<Semd>, i: nat, r: seq<Semd>)
    requires 0 < i <= |asl|
    ensures [asl[0]] + (asl[1..][..i - 1] + r) == asl[..i] + r
    ensures asl[1..][i - 1..] == asl[i..]
  {
    assert asl[..i] == [asl[0]] + asl[1..][..i - 1];
  }

  lemma {:induction false} EnqueueSkip(asl: seq<Semd>, key: int, p: nat, i: nat)
    requires i <= |asl| && forall j :: 0 <= j < i ==> asl[j].key != key
    ensures Enqueue(asl, key, p) == asl[..i] + Enqueue(asl[i..], key, p)
  {
    if i == 0 {
      assert asl[0..] == asl;
    } else {
      EnqueueSkip(asl[1..], key, p, i - 1);
      SkipFront(asl, i, Enqueue(asl[i..], key, p));
    }
  }

  lemma EnqueueHere(asl: seq<Semd>, key: int, p: nat, i: nat)
    requires i < |asl| && asl[i].key == key && forall j :: 0 <= j < i ==> asl[j].key != key
    ensures Enqueue(asl, key, p) == asl[i := Semd(key, asl[i].procq + [p])]
  {
    EnqueueSkip(asl, key, p, i);
    assert asl[i..] == [asl[i]] + asl[i + 1..];
  }

  lemma {:induction false} DequeueSkip(asl: seq<Semd>, key: int, i: nat)
    requires i <= |asl| && forall j :: 0 <= j < i ==> asl[j].key != key
    ensures Dequeue(asl, key) == asl[..i] + Dequeue(asl[i..], key)
  {
    if i == 0 {
      assert asl[0..] == asl;
    } else {
      DequeueSkip(asl[1..], key, i - 1);
      SkipFront(asl, i, Dequeue(asl[i..], key));
    }
  }

  lemma {:induction false} WaitersSkip(asl: seq<Semd>, key: int, i: nat)
    requires i <= |asl| && forall j :: 0 <= j < i ==> asl[j].key != key
    ensures Waiters(asl, key) == Waiters(asl[i..], key)
  {
    if i > 0 {
      WaitersSkip(asl[1..], key, i - 1);
      assert asl[1..][i - 1..] == asl[i..];
    }
  }

  lemma {:induction false} UnlinkSkip(asl: seq<Semd>, key: int, p: nat, i: nat)
    requires i <= |asl| && forall j :: 0 <= j < i ==> asl[j].key != key || p !in asl[j].procq
    ensures Unlink(asl, key, p) == asl[..i] + Unlink(asl[i..], key, p)
  {
    if i == 0 {
      assert asl[0..] == asl;
    } else {
      UnlinkSkip(asl[1..], key, p, i - 1);
      SkipFront(asl, i, Unlink(asl[i..], key, p));
    }
  }

  /** The list once `p`, at position `j` of descriptor `i`, is unlinked. */
  lemma UnlinkHere(asl: seq<Semd>, key: int, p: nat, i: nat, j: nat)
    requires i < |asl| && asl[i].key == key && forall l :: 0 <= l < i ==> asl[l].key != key || p !in asl[l].procq
    requires j < |asl[i].procq| && asl[i].procq[j] == p && forall l :: 0 <= l < j ==> asl[i].procq[l] != p
    ensures var rest := asl[i].procq[..j] + asl[i].procq[j + 1..];
            Unlink(asl, key, p) == if rest == [] then asl[..i] + asl[i + 1..] else asl[i := Semd(key, rest)]
  {
    UnlinkSkip(asl, key, p, i);
    RemoveAt(asl[i].procq, p, j);
    assert p in asl[i].procq;
    var rest := asl[i].procq[..j] + asl[i].procq[j + 1..];
    Replace(asl, i, rest);
  }

  lemma Replace(asl: seq<Semd>, i: nat, rest: seq<nat>)
    requires i < |asl|
    ensures asl[i..][0] == asl[i] && asl[i..][1..] == asl[i + 1..]
    ensures asl[..i] + ([] + asl[i + 1..]) == asl[..i] + asl[i + 1..]
    ensures asl[..i] + ([Semd(asl[i].key, rest)] + asl[i + 1..]) == asl[i := Semd(asl[i].key, rest)]
  {
  }

  lemma {:induction false} RemoveAt(s: seq<nat>, x: nat, i: nat)
    requires i < |s| && s[i] == x && forall j :: 0 <= j < i ==> s[j] != x
    ensures Remove(s, x) == s[..i] + s[i + 1..]
  {
    if i > 0 {
      RemoveAt(s[1..], x, i - 1);
      assert s[..i] == [s[0]] + s[1..][..i - 1];
    }
  }

  lemma {:induction false} RemoveAbsent(s: seq<nat>, x: nat)
    requires x !in s
    ensures Remove(s, x) == s
  {
    if s != [] {
      RemoveAbsent(s[1..], x);
    }
  }

  lemma {:induction false} QueueInRange(asl: seq<Semd>, i: nat, n: nat)
    requires AslInRange(asl, n) && i < |asl|
    ensures InRange(asl[i].procq, n)
    ensures forall x :: x in asl[i].procq ==> x in Blocked(asl)
  {
    if i > 0 {
      QueueInRange(asl[1..], i - 1, n);
    }
  }

  lemma {:induction false} InSomeQueue(asl: seq<Semd>, q: nat) returns (i: nat)
    requires q in Blocked(asl)
    ensures i < |asl| && q in asl[i].procq
  {
    if q in asl[0].procq {
      i := 0;
    } else {
      assert q !in multiset(asl[0].procq);
      i := InSomeQueue(asl[1..], q);
      i := i + 1;
    }
  }

  /** A proper descendant descends from a child. */
  lemma {:induction false} ThroughChild(pcb: seq<Pcb>, free: seq<nat>, nextPid: nat, p: nat, q: nat) returns (c: nat)
    requires Forest(pcb, free, nextPid) && Live(pcb, free, p) && Live(pcb, free, q) && Desc(pcb, p, q) && q != p
    ensures c in pcb[p].child && c < |pcb| && Desc(pcb, c, q)
    decreases pcb[q].pid
  {
    assert NodeOk(pcb, free, q);
    var r := pcb[q].parent.value;
    if r == p {
      c := q;
    } else {
      c := ThroughChild(pcb, free, nextPid, p, r);
    }
  }

  class Nucleus {
    const devs: int
    var pcb: seq<Pcb>
    var free: seq<nat>
    var nextPid: nat
    var ready: seq<nat>
    var asl: seq<Semd>
    var semdFree: nat
    var curr: Option<nat>
    var processCount: int
    var softBlock: int
    var sem: map<int, int>
    var todStart: int
    var clock: int
    var mode: Mode

    /** The state the specification speaks of. */
    ghost function S(): Kernel
      reads this
    {
      Kernel(devs, pcb, free, nextPid, ready, asl, semdFree, curr, processCount, softBlock, sem,
             todStart, clock, mode)
    }

    /** main: initPcbs pushes every PCB on the free list, the first is allocated and dispatched. */
    constructor (devs: int, maxproc: nat, sem: map<int, int>, t: int)
      requires maxproc > 0
      ensures S() == Boot(devs, maxproc, sem, t)
    {
      this.devs := devs;
      var list: seq<nat> := [];
      for i := 0 to maxproc
        invariant list == Down(i)
      {
        list := [i] + list;
      }
      var first := list[0];
      this.pcb := seq(maxproc, _ => BLANK_PCB)[first := BLANK_PCB.(pid := 1)];
      this.free, this.nextPid := list[1..], 2;
      this.ready, this.asl, this.semdFree := [first], [], maxproc;
      this.curr, this.processCount, this.softBlock := None, 1, 0;
      this.sem, this.todStart, this.clock, this.mode := sem, 0, t, Waiting;
      new;
      Dispatch(t);
    }

    // -------------------------------------------------------------- PCB queues

    /** The scan of insertProcQ on a queue read from its head. */
    method Insert(q: seq<nat>, p: nat) returns (r: seq<nat>)
      requires InRange(q, |pcb|) && p < |pcb|
      ensures r == InsertProcQ(pcb, q, p)
    {
      var i := 0;
      ghost var ps := Prios(pcb, q);
      assert forall j :: 0 <= j < |q| ==> q[j] in q;
      while i < |q| && pcb[q[i]].prio >= pcb[p].prio
        invariant 0 <= i <= |q|
        invariant forall j :: 0 <= j < i ==> ps[j] >= pcb[p].prio
      {
        assert ps[i] == pcb[q[i]].prio;
        i := i + 1;
      }
      assert i < |q| ==> ps[i] == pcb[q[i]].prio;
      r := q[..i] + [p] + q[i..];
    }

    /** The scan of outProcQ on the ready queue. */
    method OutReady(p: nat)
      modifies `ready
      ensures ready == Remove(old(ready), p)
    {
      var i := 0;
      while i < |ready|
        invariant 0 <= i <= |ready| && ready == old(ready)
        invariant forall j :: 0 <= j < i ==> ready[j] != p
      {
        if ready[i] == p {
          RemoveAt(ready, p, i);
          ready := ready[..i] + ready[i + 1..];
          return;
        }
        i := i + 1;
      }
      RemoveAbsent(ready, p);
    }

    method MakeReady(p: nat)
      requires Wf(S()) && p < |pcb|
      modifies `ready
      ensures S() == NucleusSpec.MakeReady(old(S()), p)
    {
      ready := Insert(ready, p);
    }

    // -------------------------------------------------------------- active semaphore list

    /** insertBlocked: TRUE when a descriptor is needed and none is left. */
    method InsertBlocked(key: int, p: nat) returns (full: bool)
      requires p < |pcb|
      modifies `asl, `semdFree, `pcb
      ensures var asl' := Enqueue(old(asl), key, p);
              if full then |asl'| - |old(asl)| > semdFree && S() == old(S())
              else S() == old(S()).(asl := asl', semdFree := semdFree,
                                    pcb := old(pcb)[p := old(pcb)[p].(semAdd := key)]) &&
                   semdFree == old(semdFree) - (|asl'| - |old(asl)|)
    {
      var i := 0;
      while i < |asl|
        invariant 0 <= i <= |asl| && S() == old(S())
        invariant forall j :: 0 <= j < i ==> asl[j].key != key
      {
        if asl[i].key == key {
          EnqueueHere(asl, key, p, i);
          asl := asl[i := Semd(key, asl[i].procq + [p])];
          pcb := pcb[p := pcb[p].(semAdd := key)];
          return false;
        }
        i := i + 1;
      }
      EnqueueSkip(asl, key, p, i);
      assert asl[..i] == asl && asl[i..] == [];
      if semdFree > 0 {
        semdFree := semdFree - 1;
        asl := asl + [Semd(key, [p])];
        pcb := pcb[p := pcb[p].(semAdd := key)];
        return false;
      }
      return true;
    }

    method RemoveBlocked(key: int) returns (r: Option<nat>)
      requires forall s :: s in asl ==> s.procq != []
      modifies `asl, `semdFree
      ensures asl == Dequeue(old(asl), key) && semdFree == old(semdFree) + (|old(asl)| - |asl|)
      ensures r == if Waiters(old(asl), key) == [] then None else Some(Waiters(old(asl), key)[0])
    {
      var i := 0;
      while i < |asl|
        invariant 0 <= i <= |asl| && S() == old(S())
        invariant forall j :: 0 <= j < i ==> asl[j].key != key
      {
        if asl[i].key == key {
          DequeueSkip(asl, key, i);
          WaitersSkip(asl, key, i);
          assert asl[i] in asl;
          assert asl[i..] == [asl[i]] + asl[i + 1..];
          var q := asl[i].procq;
          if |q| == 1 {
            semdFree := semdFree + 1;
            asl := asl[..i] + asl[i + 1..];
            assert asl == old(asl)[..i] + ([] + old(asl)[i + 1..]);
          } else {
            asl := asl[i := Semd(key, q[1..])];
            assert asl == old(asl)[..i] + ([asl[i]] + old(asl)[i + 1..]);
          }
          return Some(q[0]);
        }
        i := i + 1;
      }
      DequeueSkip(asl, key, i);
      WaitersSkip(asl, key, i);
      assert asl[..i] == asl && asl[i..] == [];
      return None;
    }

    /** outBlocked: look in the queue of p's own semaphore. */
    method OutBlocked(p: nat)
      requires p < |pcb|
      modifies `asl, `semdFree
      ensures asl == Unlink(old(asl), pcb[p].semAdd, p) && semdFree == old(semdFree) + (|old(asl)| - |asl|)
    {
      var key := pcb[p].semAdd;
      var i := 0;
      while i < |asl|
        invariant 0 <= i <= |asl| && S() == old(S())
        invariant forall j :: 0 <= j < i ==> asl[j].key != key || p !in asl[j].procq
      {
        if asl[i].key == key {
          var j := 0;
          var q := asl[i].procq;
          while j < |q| && q[j] != p
            invariant 0 <= j <= |q| && forall l :: 0 <= l < j ==> q[l] != p
          {
            j := j + 1;
          }
          if j < |q| {
            UnlinkHere(asl, key, p, i, j);
            var rest := q[..j] + q[j + 1..];
            if rest == [] {
              semdFree := semdFree + 1;
              asl := asl[..i] + asl[i + 1..];
            } else {
              asl := asl[i := Semd(key, rest)];
            }
            return;
          }
        }
        i := i + 1;
      }
      UnlinkSkip(asl, key, p, i);
      assert asl[..i] == asl && asl[i..] == [];
    }

    method HeadBlocked(key: int) returns (r: Option<nat>)
      ensures r == if Waiters(asl, key) == [] then None else Some(Waiters(asl, key)[0])
    {
      var i := 0;
      while i < |asl|
        invariant 0 <= i <= |asl|
        invariant forall j :: 0 <= j < i ==> asl[j].key != key
      {
        if asl[i].key == key {
          WaitersSkip(asl, key, i);
          assert asl[i..][0] == asl[i];
          return if asl[i].procq == [] then None else Some(asl[i].procq[0]);
        }
        i := i + 1;
      }
      WaitersSkip(asl, key, i);
      return None;
    }

    // -------------------------------------------------------------- process tree

    /** terminateProcess: the loop over the children, then the process itself. From a state of the
        invariant, with no stale ready victim, exactly the subtree of `p` is gone. */
    method TerminateProcess(p: nat)
      requires TreeWf(pcb) && p < |pcb|
      modifies this
      ensures S() == NucleusSpec.TerminateProcess(old(S()), p)
      ensures var k := old(S());
              Base(k) && Live(k.pcb, k.free, p) && ReadyClean(k, Descendants(k.pcb, k.free, p)) ==>
                Gone(k, S(), Descendants(k.pcb, k.free, p))
      decreases Links(pcb)
    {
      while pcb[p].child != []
        invariant TreeWf(pcb) && |pcb| == |old(pcb)| && Links(pcb) <= Links(old(pcb))
        invariant NucleusSpec.TerminateProcess(S(), p) == NucleusSpec.TerminateProcess(old(S()), p)
        decreases Links(pcb)
      {
        var c := pcb[p].child[0];
        assert c in pcb[p].child;
        pcb := RemoveChild(pcb, p);
        TerminateProcess(c);
      }
      FinishProcess(p);
      CleanTermination(old(S()), p);
    }

    /** terminateProcess below its loop. */
    method FinishProcess(p: nat)
      requires TreeWf(pcb) && p < |pcb|
      modifies this
      ensures S() == Finish(old(S()), p)
    {
      LeaveQueue(p);
      pcb := OutChild(pcb, p);
      processCount := processCount - 1;
      free := [p] + free;
    }

    method LeaveQueue(p: nat)
      requires p < |pcb|
      modifies `curr, `asl, `semdFree, `softBlock, `ready
      ensures S() == Leave(old(S()), p)
    {
      if curr == Some(p) {
        curr := None;
      } else if pcb[p].semAdd != NULL {
        OutBlocked(p);
        if IsDevice(devs, pcb[p].semAdd) {
          softBlock := softBlock - 1;
        }
      } else {
        OutReady(p);
      }
    }

    /** searchInTree: a live process with this pid below `root`, if and only if there is one. */
    method SearchInTree(root: nat, pid: int) returns (r: Option<nat>)
      requires Forest(pcb, free, nextPid) && Live(pcb, free, root)
      ensures r.Some? ==> r.value in Descendants(pcb, free, root) && pcb[r.value].pid == pid
      ensures r.None? ==> forall q :: q in Descendants(pcb, free, root) ==> pcb[q].pid != pid
      decreases nextPid - pcb[root].pid
    {
      if pcb[root].pid == pid {
        assert Desc(pcb, root, root);
        return Some(root);
      }
      var i := 0;
      assert NodeOk(pcb, free, root);
      while i < |pcb[root].child|
        invariant 0 <= i <= |pcb[root].child|
        invariant forall j, q :: 0 <= j < i && q in Descendants(pcb, free, pcb[root].child[j]) ==> pcb[q].pid != pid
      {
        var c := pcb[root].child[i];
        assert c in pcb[root].child;
        assert NodeOk(pcb, free, c);
        r := SearchInTree(c, pid);
        if r.Some? {
          BelowChild(root, c, r.value);
          return;
        }
        i := i + 1;
      }
      forall q | q in Descendants(pcb, free, root)
        ensures pcb[q].pid != pid
      {
        if q != root {
          var c := ThroughChild(pcb, free, nextPid, root, q);
          var j :| 0 <= j < |pcb[root].child| && pcb[root].child[j] == c;
          assert q in Descendants(pcb, free, pcb[root].child[j]);
        }
      }
      return None;
    }

    lemma {:induction false} BelowChild(p: nat, c: nat, q: nat)
      requires Forest(pcb, free, nextPid) && Live(pcb, free, p) && c in pcb[p].child
      requires q in Descendants(pcb, free, c)
      ensures q in Descendants(pcb, free, p)
      decreases if q < |pcb| then pcb[q].pid else 0
    {
      assert NodeOk(pcb, free, p) && NodeOk(pcb, free, c) && NodeOk(pcb, free, q);
      assert Desc(pcb, p, p);
      if q != c {
        BelowChild(p, c, pcb[q].parent.value);
      }
    }

    method SearchBlockedByPid(pid: int) returns (r: Option<nat>)
      requires AslInRange(asl, |pcb|)
      ensures r.Some? ==> r.value in Blocked(asl) && r.value < |pcb| && pcb[r.value].pid == pid
      ensures r.None? ==> forall q: nat :: q in Blocked(asl) && q < |pcb| ==> pcb[q].pid != pid
    {
      var i := 0;
      while i < |asl|
        invariant 0 <= i <= |asl|
        invariant forall l :: 0 <= l < i ==> forall x :: x in asl[l].procq ==> x < |pcb| && pcb[x].pid != pid
      {
        QueueInRange(asl, i, |pcb|);
        r := SearchQueue(asl[i].procq, pid);
        if r.Some? {
          return;
        }
        assert forall x :: x in asl[i].procq ==> x < |pcb| && pcb[x].pid != pid;
        i := i + 1;
      }
      forall q: nat | q in Blocked(asl) && q < |pcb|
        ensures pcb[q].pid != pid
      {
        var l := InSomeQueue(asl, q);
      }
      return None;
    }

    method SearchQueue(q: seq<nat>, pid: int) returns (r: Option<nat>)
      requires InRange(q, |pcb|)
      ensures r.Some? ==> r.value in q && r.value < |pcb| && pcb[r.value].pid == pid
      ensures r.None? ==> forall x :: x in q ==> x < |pcb| && pcb[x].pid != pid
    {
      var j := 0;
      while j < |q|
        invariant 0 <= j <= |q|
        invariant forall l :: 0 <= l < j ==> q[l] < |pcb| && pcb[q[l]].pid != pid
      {
        assert q[j] in q;
        if pcb[q[j]].pid == pid {
          return Some(q[j]);
        }
        j := j + 1;
      }
      return None;
    }

    /** findPcbByPid finds the one live process with this pid, although it does not look below
        blocked processes. */
    method FindPcbByPid(pid: int) returns (r: Option<nat>)
      requires Base(S())
      ensures r == FindByPid(S(), pid)
    {
      if curr.Some? {
        PlaceOf(S(), curr.value);
        r := SearchInTree(curr.value, pid);
        if r.Some? {
          OnlyOne(r.value, pid);
          return;
        }
        assert Desc(pcb, curr.value, curr.value);
        assert curr.value in Descendants(pcb, free, curr.value);
      }
      var i := 0;
      while i < |ready|
        invariant 0 <= i <= |ready|
        invariant forall j :: 0 <= j < i ==> ready[j] < |pcb| && pcb[ready[j]].pid != pid
      {
        assert ready[i] in ready;
        PlaceOf(S(), ready[i]);
        r := SearchInTree(ready[i], pid);
        if r.Some? {
          OnlyOne(r.value, pid);
          return;
        }
        assert Desc(pcb, ready[i], ready[i]);
        assert ready[i] in Descendants(pcb, free, ready[i]);
        i := i + 1;
      }
      r := SearchBlockedByPid(pid);
      if r.Some? {
        PlaceOf(S(), r.value);
        OnlyOne(r.value, pid);
      } else {
        forall q: nat | Live(pcb, free, q)
          ensures pcb[q].pid != pid
        {
          PlaceOf(S(), q);
        }
      }
    }

    lemma OnlyOne(q: nat, pid: int)
      requires Base(S()) && Live(pcb, free, q) && pcb[q].pid == pid
      ensures FindByPid(S(), pid) == Some(q)
    {
      var r := FindByPid(S(), pid);
      assert r.Some?;
      assert Live(pcb, free, r.value);
    }

    // -------------------------------------------------------------- scheduler and system calls

    /** dispatch: run the head of the ready queue, or stop, wait or give up. A wait ends in an
        interrupt, whose handler dispatches again. */
    method Dispatch(t: int)
      modifies this
      ensures S() == NucleusSpec.Dispatch(old(S()), t)
    {
      if ready == [] {
        if processCount == 0 {
          mode := Halted;
        } else if softBlock > 0 {
          mode := Waiting;
        } else {
          mode := Panicked;
        }
        return;
      }
      curr, ready := Some(ready[0]), ready[1..];
      todStart, mode := t, Running;
    }

    method Charge(t: int)
      requires Wf(S()) && curr.Some?
      modifies `pcb
      ensures S() == NucleusSpec.Charge(old(S()), t)
    {
      var p := curr.value;
      pcb := pcb[p := pcb[p].(time := pcb[p].time + (t - todStart))];
    }

    /** insertBlocked on the running process, its result ignored; then currProc = NULL. */
    method BlockCurrent(key: int)
      requires Wf(S()) && curr.Some?
      modifies this
      ensures S() == Block(old(S()), key)
    {
      var full := InsertBlocked(key, curr.value);
      curr := None;
    }

    /** allocPcb and the fields nsys1 sets in the new PCB. */
    method AllocPcb(prio: int, support: int, parent: nat) returns (p: nat)
      requires free != [] && InRange(free, |pcb|)
      modifies `free, `nextPid, `pcb
      ensures p == old(free)[0] < |old(pcb)|
      ensures S() == old(S()).(free := old(free)[1..], nextPid := old(nextPid) + 1,
                               pcb := old(pcb)[p := Pcb(Some(parent), [], NULL, prio, old(nextPid), 0, 0, support)])
    {
      p := free[0];
      assert p in free;
      free := free[1..];
      pcb := pcb[p := Pcb(Some(parent), [], NULL, prio, nextPid, 0, 0, support)];
      nextPid := nextPid + 1;
    }

    method NSys1(prio: int, support: int)
      requires Wf(S()) && curr.Some?
      modifies this
      ensures S() == Create(old(S()), prio, support)
    {
      var c := curr.value;
      if free == [] {
        pcb := pcb[c := pcb[c].(a0 := NOPROC)];
        return;
      }
      var p := AllocPcb(prio, support, c);
      ready := Insert(ready, p);
      pcb := pcb[c := pcb[c].(child := [p] + pcb[c].child, a0 := pcb[p].pid)];
      processCount := processCount + 1;
    }

    method NSys2(pid: int, t: int)
      requires Base(S()) && curr.Some?
      modifies this
      ensures S() == Terminate(old(S()), pid, t)
    {
      var target := curr;
      if pid != 0 {
        target := FindPcbByPid(pid);
        if target.None? {
          var c := curr.value;
          pcb := pcb[c := pcb[c].(a0 := NOPROC)];
          return;
        }
      }
      TerminateProcess(target.value);
      Dispatch(t);
    }

    method NSys3(a: int, t: int, t': int)
      requires Wf(S()) && curr.Some?
      modifies this
      ensures S() == Passeren(old(S()), a, t, t')
    {
      var v := if a in sem then sem[a] else 0;
      if v > 0 {
        sem := sem[a := v - 1];
      } else {
        Charge(t);
        BlockCurrent(a);
        Dispatch(t');
      }
    }

    /** removeBlocked, then insertProcQ of whom it returns. */
    method WakeOne(key: int) returns (p: Option<nat>)
      requires Wf(S()) && AslOk(asl, pcb)
      modifies `asl, `semdFree, `ready
      ensures p.None? ==> Waiters(old(asl), key) == [] && S() == old(S())
      ensures p.Some? ==> Waiters(old(asl), key) != [] && p.value == Waiters(old(asl), key)[0] < |pcb|
                          && S() == Wake(old(S()), key)
    {
      NonEmptyQueues(asl, pcb);
      WaitersInRange(asl, key, |pcb|);
      assert Waiters(asl, key) != [] ==> Waiters(asl, key)[0] in Waiters(asl, key);
      NothingToDequeue(asl, pcb, key);
      p := RemoveBlocked(key);
      if p.Some? {
        ready := Insert(ready, p.value);
      }
    }

    method NSys4(a: int)
      requires Base(S())
      modifies this
      ensures S() == Verhogen(old(S()), a)
    {
      var p := WakeOne(a);
      if p.None? {
        sem := sem[a := (if a in sem then sem[a] else 0) + 1];
      }
    }

    /** nsys5 and nsys7 from the charge on. */
    method SoftWait(i: int, t: int, t': int)
      requires Wf(S()) && curr.Some?
      modifies this
      ensures S() == NucleusSpec.SoftWait(old(S()), i, t, t')
    {
      Charge(t);
      softBlock := softBlock + 1;
      BlockCurrent(DevAddr(devs, i));
      Dispatch(t');
    }

    method NSys10(t: int, t': int)
      requires Wf(S()) && curr.Some?
      modifies this
      ensures S() == Yield(old(S()), t, t')
    {
      Charge(t);
      if ready == [] {
        ready := Insert(ready, curr.value);
      } else {
        var head := ready[0];
        assert forall q :: q in ready[1..] ==> q in ready;
        var rest := Insert(ready[1..], curr.value);
        ready := [head] + rest;
      }
      curr := None;
      Dispatch(t');
    }

    // -------------------------------------------------------------- interrupts

    method LocalTimer(t: int, t': int)
      requires Wf(S()) && curr.Some?
      modifies this
      ensures S() == NucleusSpec.LocalTimer(old(S()), t, t')
    {
      Charge(t);
      MakeReady(curr.value);
      Dispatch(t');
    }

    /** itInterruptHandler with its draining loop. */
    method IntervalTimer(t: int)
      requires Base(S()) && SoftOk(S())
      modifies this
      ensures S() == Tick(old(S()), t)
    {
      DrainClock();
      sem := sem[DevAddr(devs, NSUPPSEM) := 0];
      if curr.Some? {
        MakeReady(curr.value);
      }
      Dispatch(t);
    }

    method DrainClock()
      requires Base(S()) && SoftOk(S())
      modifies this
      ensures S() == Drain(old(S())) && Wf(S())
    {
      var key := DevAddr(devs, NSUPPSEM);
      var more := true;
      while more
        invariant Base(S()) && SoftOk(S())
        invariant Drain(S()) == Drain(old(S()))
        invariant !more ==> Waiters(asl, key) == []
        decreases more, |Blocked(asl)|
      {
        DrainTurn(S(), key);
        more := DrainOne();
      }
    }

    /** One turn of the draining loop. */
    method DrainOne() returns (more: bool)
      requires Wf(S()) && AslOk(asl, pcb)
      modifies `asl, `semdFree, `ready, `softBlock
      ensures var key := DevAddr(devs, NSUPPSEM);
              if Waiters(old(asl), key) == [] then !more && S() == old(S())
              else more && Waiters(old(asl), key)[0] < |pcb| && S() == Wake(old(S()), key).(softBlock := old(softBlock) - 1)
    {
      var p := WakeOne(DevAddr(devs, NSUPPSEM));
      more := p.Some?;
      if more {
        softBlock := softBlock - 1;
      }
    }

    /** The V of deviceInterruptHandler. */
    method SignalDevice(i: int, status: int)
      requires Base(S())
      modifies this
      ensures S() == Signal(old(S()), i, status)
    {
      var a := DevAddr(devs, i);
      var p := WakeOne(a);
      if p.Some? {
        pcb := pcb[p.value := pcb[p.value].(a0 := status)];
        softBlock := softBlock - 1;
      } else {
        sem := sem[a := (if a in sem then sem[a] else 0) + 1];
      }
    }

    method DeviceInterrupt(line: int, pending: set<nat>, recv: int, transm: int, status: int, t: int)
      requires Base(S())
      modifies this
      ensures S() == Device(old(S()), line, pending, recv, transm, status, t)
    {
      var s := Interrupting(line, pending, recv, transm, status);
      if s.Some? {
        SignalDevice(s.value.0, s.value.1);
      }
      if curr.None? {
        Dispatch(t);
      }
    }

    // -------------------------------------------------------------- one exception

    method Reply(v: int)
      requires Wf(S()) && curr.Some?
      modifies `pcb
      ensures S() == NucleusSpec.Reply(old(S()), curr.value, v)
    {
      var c := curr.value;
      pcb := pcb[c := pcb[c].(a0 := v)];
    }

    method SystemCall(m: Moment)
      requires Inv(S()) && mode == Running && (m.e.NSys1? || m.e.NSys2? || m.e.NSys4? || m.e.Trap?)
      modifies this
      ensures S() == HandleProcess(old(S()), m)
    {
      match m.e
      case NSys1(prio, support) => NSys1(prio, support);
      case NSys2(pid) => NSys2(pid, m.t');
      case NSys4(a) => NSys4(a);
      case Trap =>
        if pcb[curr.value].support == NULL {
          NSys2(0, m.t');
        }
    }

    method WaitingCall(m: Moment)
      requires Inv(S()) && mode == Running && (m.e.NSys3? || m.e.NSys5? || m.e.NSys7? || m.e.NSys10?)
      modifies this
      ensures S() == HandleWait(old(S()), m)
    {
      match m.e
      case NSys3(a) => NSys3(a, m.t, m.t');
      case NSys5(a1) => SoftWait(SemIndex(a1), m.t, m.t');
      case NSys7 => SoftWait(NSUPPSEM, m.t, m.t');
      case NSys10 => NSys10(m.t, m.t');
    }

    method ReadingCall(m: Moment)
      requires Inv(S()) && mode == Running && (m.e.NSys6? || m.e.NSys8? || m.e.NSys9?)
      modifies this
      ensures S() == HandleRead(old(S()), m)
    {
      var c := curr.value;
      match m.e
      case NSys6 => Reply(pcb[c].time + (m.t - todStart));
      case NSys8 => Reply(pcb[c].support);
      case NSys9(parent) =>
        if !parent {
          Reply(pcb[c].pid);
        } else if pcb[c].parent.None? {
          Reply(0);
        } else {
          Reply(pcb[pcb[c].parent.value].pid);
        }
    }

    method Interrupt(m: Moment)
      requires Inv(S()) && Enabled(S(), m) && (m.e.Plt? || m.e.It? || m.e.Dev?)
      modifies this
      ensures S() == HandleInterrupt(old(S()), m)
    {
      match m.e
      case Plt => LocalTimer(m.t, m.t');
      case It => IntervalTimer(m.t');
      case Dev(line, pending, recv, transm, status) =>
        DeviceInterrupt(line, pending, recv, transm, status, m.t');
    }

    /** exceptionHandler, from the exception to the end of dispatch: one step of the machine,
        after which the invariant holds exactly when the event's guard held before. */
    method Exception(m: Moment)
      requires Inv(S()) && Enabled(S(), m)
      modifies this
      ensures S() == Step(old(S()), m)
      ensures Inv(S()) <==> Guard(old(S()), m.e)
    {
      StepInv(S(), m);
      if m.e.Plt? || m.e.It? || m.e.Dev? {
        Interrupt(m);
      } else if m.e.NSys6? || m.e.NSys8? || m.e.NSys9? {
        ReadingCall(m);
      } else if m.e.NSys1? || m.e.NSys2? || m.e.NSys4? || m.e.Trap? {
        SystemCall(m);
      } else {
        WaitingCall(m);
      }
      clock := m.t';
    }
  }

  /** A turn that wakes somebody leaves the same drain, one waiter shorter. */
  lemma DrainTurn(k: Kernel, key: int)
    requires Base(k) && SoftOk(k) && key == DevAddr(k.devs, NSUPPSEM)
    ensures Waiters(k.asl, key) != [] ==>
              && Waiters(k.asl, key)[0] < |k.pcb|
              && var k' := Wake(k, key).(softBlock := k.softBlock - 1);
              && Base(k') && SoftOk(k') && Drain(k') == Drain(k) && |Blocked(k'.asl)| < |Blocked(k.asl)|
  {
    if Waiters(k.asl, key) != [] {
      SoftWakeBase(k, key);
      DequeueBlocked(k.asl, key);
    }
  }

  lemma {:induction false} NonEmptyQueues(asl: seq<Semd>, pcb: seq<Pcb>)
    requires AslOk(asl, pcb)
    ensures forall s :: s in asl ==> s.procq != []
  {
    if asl != [] {
      NonEmptyQueues(asl[1..], pcb);
    }
  }

  lemma {:induction false} NothingToDequeue(asl: seq<Semd>, pcb: seq<Pcb>, key: int)
    requires AslOk(asl, pcb)
    ensures Waiters(asl, key) == [] ==> Dequeue(asl, key) == asl
  {
    if asl != [] {
      NothingToDequeue(asl[1..], pcb, key);
    }
  }
}
