/** Every step of the paging machine keeps its invariant and shows the U-procs plain memory. */
module PagerProof {
  import opened Queues
  import opened Pager

  // ---------------------------------------------------------------- what a step leaves alone

  /** The swap pool and the page tables are as they were, and the same frame is in transit. */
  lemma TablesFrame(v: Vm, v': Vm)
    requires Tables(v) && v'.swap == v.swap && v'.pt == v.pt && forall g: int :: Busy(v', g) <==> Busy(v, g)
    ensures Tables(v')
  {
    forall f: nat | f < |v'.swap|
      ensures FrameOk(v', f)
    {
      assert FrameOk(v, f);
    }
    forall p | p in v'.pt
      ensures PteOk(v', p)
    {
      assert PteOk(v, p);
    }
  }

  ghost predicate SameUsers(v: Vm, v': Vm) { forall a :: Active(v', a) <==> Active(v, a) }

  lemma UsersFrame(v: Vm, v': Vm)
    requires GoneOk(v) && OneUser(v) && SameUsers(v, v') && forall p :: Resident(v', p) ==> Resident(v, p)
    ensures GoneOk(v') && OneUser(v')
  {
    forall p | Resident(v', p)
      ensures InUse(v', p.asid)
    {
      assert Resident(v, p);
      var a :| Active(v, a) && a.asid == p.asid;
      assert Active(v', a);
    }
  }

  /** One process moves, and gives up or takes up nothing. */
  lemma SameUsersMove(v: Vm, v': Vm, a: Proc)
    requires a in v.pc && a in v'.pc && v'.pc == v.pc[a := v'.pc[a]] && (Departed(v'.pc[a]) <==> Departed(v.pc[a]))
    ensures SameUsers(v, v')
  {
  }

  // ---------------------------------------------------------------- the mutex

  lemma TailMember(q: seq<Proc>, a: Proc)
    requires a in q && a != q[0]
    ensures a in q[1..]
  {
    var i :| 0 <= i < |q| && q[i] == a;
    assert q[1..][i - 1] == a;
  }

  lemma FreeDoor(v: Vm)
    requires Door(v)
    ensures Door(Free(v))
  {
    if v.queue != [] {
      var v', b := Free(v), v.queue[0];
      assert v'.pc == v.pc[b := Admit(v.pc[b])] && !AtDoor(Admit(v.pc[b]));
      forall i | 0 <= i < |v'.queue|
        ensures v'.queue[i] in v'.pc && AtDoor(v'.pc[v'.queue[i]])
      {
        assert v'.queue[i] == v.queue[i + 1] != b;
      }
      forall i, j | 0 <= i < j < |v'.queue|
        ensures v'.queue[i] != v'.queue[j]
      {
        assert v'.queue[i] == v.queue[i + 1] && v'.queue[j] == v.queue[j + 1];
      }
      forall a | a in v'.pc && AtDoor(v'.pc[a])
        ensures a in v'.queue
      {
        TailMember(v.queue, a);
      }
    }
  }

  lemma FreeMutex(v: Vm)
    requires Door(v) && v.sem == 0 && v.holding == {} && forall b :: b in v.pc ==> !Critical(v.pc[b])
    ensures Mutex(Free(v))
  {
    FreeDoor(v);
    FreeHeld(v);
  }

  lemma FreeHeld(v: Vm)
    requires Door(v) && v.sem == 0 && v.holding == {} && forall b :: b in v.pc ==> !Critical(v.pc[b])
    ensures Held(Free(v))
  {
    if v.queue != [] {
      assert v.queue[0] in v.pc && AtDoor(v.pc[v.queue[0]]);
    }
  }

  /** Nobody comes to the door or leaves it. */
  lemma DoorFrame(v: Vm, v': Vm, a: Proc)
    requires Door(v) && v'.queue == v.queue && a in v'.pc && v'.pc == v.pc[a := v'.pc[a]]
    requires (a in v.pc ==> !AtDoor(v.pc[a])) && !AtDoor(v'.pc[a])
    ensures Door(v') && a !in v.queue
  {
    assert forall i :: 0 <= i < |v.queue| ==> v.queue[i] != a;
  }

  /** The holder leaves. */
  lemma LeaveMutex(v: Vm, v1: Vm, a: Proc)
    requires Mutex(v) && v.owner == Some(a) && v1.queue == v.queue && v1.sem == v.sem && v1.holding == {}
    requires a in v1.pc && v1.pc == v.pc[a := v1.pc[a]] && !Critical(v1.pc[a]) && !AtDoor(v1.pc[a])
    ensures Mutex(Free(v1)) && Door(v1) && a !in v1.queue
  {
    assert a in v.pc && !AtDoor(v.pc[a]);
    DoorFrame(v, v1, a);
    FreeMutex(v1);
  }

  lemma AcquireMutex(v: Vm, a: Proc, wait: Pc, enter: Pc)
    requires Mutex(v) && a in v.pc && !Critical(v.pc[a]) && !AtDoor(v.pc[a])
    requires AtDoor(wait) && Critical(enter) && !Flagged(enter)
    ensures Mutex(Acquire(v, a, wait, enter))
  {
    DoorFrame(v, v, a);
    AcquireDoor(v, a, wait, enter);
    AcquireHeld(v, a, wait, enter);
  }

  lemma AcquireHeld(v: Vm, a: Proc, wait: Pc, enter: Pc)
    requires Held(v) && a in v.pc && !Critical(v.pc[a]) && AtDoor(wait) && Critical(enter) && !Flagged(enter)
    ensures Held(Acquire(v, a, wait, enter))
  {
    if v.sem > 0 {
      assert v.owner.None? && v.holding == {};
    } else {
      assert v.owner.Some? && v.owner != Some(a);
    }
  }

  lemma AcquireDoor(v: Vm, a: Proc, wait: Pc, enter: Pc)
    requires Door(v) && a in v.pc && a !in v.queue && !AtDoor(v.pc[a]) && AtDoor(wait) && !AtDoor(enter)
    ensures Door(Acquire(v, a, wait, enter))
  {
    if v.sem > 0 {
      DoorFrame(v, Acquire(v, a, wait, enter), a);
    } else {
      JoinDoor(v, a, wait);
    }
  }

  lemma JoinDoor(v: Vm, a: Proc, wait: Pc)
    requires Door(v) && a in v.pc && a !in v.queue && AtDoor(wait)
    ensures Door(v.(queue := v.queue + [a], pc := v.pc[a := wait]))
  {
    assert a in v.queue + [a] by { assert (v.queue + [a])[|v.queue|] == a; }
    assert forall b :: b in v.queue ==> b in v.queue + [a];
  }

  ghost predicate SameDoor(v: Vm, v': Vm) {
    v'.queue == v.queue && v'.owner == v.owner && v'.sem == v.sem && v'.holding == v.holding
  }

  lemma MutexFrame(v: Vm, v': Vm)
    requires Mutex(v) && SameDoor(v, v') && v'.pc == v.pc
    ensures Mutex(v') && Stage(v') == Stage(v)
  {
  }

  /** A process outside moves to another point outside. */
  lemma OutsideMutex(v: Vm, v': Vm, a: Proc)
    requires Mutex(v) && SameDoor(v, v') && a in v'.pc && v'.pc == v.pc[a := v'.pc[a]]
    requires a in v.pc ==> !Critical(v.pc[a]) && !AtDoor(v.pc[a])
    requires !Critical(v'.pc[a]) && !AtDoor(v'.pc[a])
    ensures Mutex(v') && Stage(v') == Stage(v)
  {
    assert v.owner != Some(a);
    DoorFrame(v, v', a);
  }

  /** The holder moves from one point inside to another. */
  lemma AdvanceMutex(v: Vm, v': Vm, a: Proc)
    requires Mutex(v) && SameDoor(v, v') && a in v.pc && a in v'.pc && v'.pc == v.pc[a := v'.pc[a]]
    requires Critical(v.pc[a]) && Critical(v'.pc[a]) && (Flagged(v.pc[a]) <==> Flagged(v'.pc[a]))
    ensures Mutex(v') && v.owner == Some(a) && Stage(v) == v.pc[a] && Stage(v') == v'.pc[a]
  {
    DoorFrame(v, v', a);
  }

  // ---------------------------------------------------------------- steps that only move along

  ghost predicate SameStore(v: Vm, v': Vm) {
    v'.swap == v.swap && v'.frames == v.frames && v'.pt == v.pt && v'.tlb == v.tlb && v'.flash == v.flash
  }

  /** Everybody but `a` is where they were, or let in. */
  ghost predicate OthersStay(v: Vm, v': Vm, a: Proc) {
    && v'.pc.Keys == v.pc.Keys
    && (forall b :: b in v.pc && b != a ==> v'.pc[b] == v.pc[b] || v'.pc[b] == Admit(v.pc[b]))
  }

  /** A step of `a` that leaves memory, tables and TLB alone, and the frame in transit; it may let
      a waiting process in. */
  ghost predicate Moves(v: Vm, v': Vm, a: Proc) {
    && SameStore(v, v') && v'.fifo < |v.swap| && OthersStay(v, v', a)
    && (Stage(v') == Stage(v) || (!InTransit(Stage(v)) && !InTransit(Stage(v'))))
  }

  lemma MovesInv(v: Vm, v': Vm, a: Proc)
    requires Inv(v) && a in v.pc && Moves(v, v', a) && Mutex(v') && PcOk(v', a)
    requires Departed(v'.pc[a]) <==> Departed(v.pc[a])
    ensures Inv(v')
  {
    TablesFrame(v, v');
    MovesPcs(v, v', a);
    MovesUsers(v, v', a);
  }

  lemma MovesUsers(v: Vm, v': Vm, a: Proc)
    requires GoneOk(v) && OneUser(v) && a in v.pc && SameStore(v, v') && OthersStay(v, v', a)
    requires Departed(v'.pc[a]) <==> Departed(v.pc[a])
    ensures GoneOk(v') && OneUser(v')
  {
    assert SameUsers(v, v');
    UsersFrame(v, v');
  }

  lemma MovesPcs(v: Vm, v': Vm, a: Proc)
    requires SameStore(v, v') && OthersStay(v, v', a) && a in v.pc && PcOk(v', a) && PcsOk(v)
    ensures PcsOk(v')
  {
    forall b | b in v'.pc
      ensures PcOk(v', b)
    {
      assert PcOk(v, b);
    }
  }

  lemma MovesView(v: Vm, v': Vm, a: Proc, mem: map<PageId, Page>)
    requires Refines(v, mem) && Moves(v, v', a)
    ensures Refines(v', mem)
  {
    assert forall p :: Flying(v', p) <==> Flying(v, p);
  }

  lemma AcquireMoves(v: Vm, a: Proc, wait: Pc, enter: Pc)
    requires Mutex(v) && v.fifo < |v.swap| && a in v.pc && !Critical(v.pc[a])
    requires !InTransit(wait) && !InTransit(enter)
    ensures Moves(v, Acquire(v, a, wait, enter), a)
  {
  }

  lemma FreeAdmits(v: Vm, a: Proc)
    requires Door(v) && a in v.pc && a !in v.queue
    ensures OthersStay(v, Free(v), a) && Free(v).pc[a] == v.pc[a] && !InTransit(Stage(Free(v)))
  {
  }

  lemma LeaveMoves(v: Vm, v1: Vm, a: Proc)
    requires Mutex(v) && v.fifo < |v.swap| && v.owner == Some(a) && !InTransit(Stage(v))
    requires v1.queue == v.queue && v1.sem == v.sem && v1.holding == {} && SameStore(v, v1) && v1.fifo == v.fifo
    requires a in v1.pc && v1.pc == v.pc[a := v1.pc[a]] && !Critical(v1.pc[a]) && !AtDoor(v1.pc[a])
    ensures Moves(v, Free(v1), a) && Free(v1).pc[a] == v1.pc[a]
  {
    LeaveMutex(v, v1, a);
    FreeAdmits(v1, a);
    FreeStore(v1);
  }

  lemma FreeStore(v: Vm)
    ensures SameStore(v, Free(v)) && Free(v).fifo == v.fifo
  {
  }

  lemma FaultInv(v: Vm, a: Proc, p: PageId)
    requires Inv(v) && Enabled(v, Fault(a, p))
    ensures Moves(v, Acquire(v, a, Want(p), Enter(p)), a)
    ensures Inv(Acquire(v, a, Want(p), Enter(p)))
  {
    AcquireMutex(v, a, Want(p), Enter(p));
    AcquireMoves(v, a, Want(p), Enter(p));
    FaultPc(v, a, p);
    MovesInv(v, Acquire(v, a, Want(p), Enter(p)), a);
  }

  lemma FaultPc(v: Vm, a: Proc, p: PageId)
    requires Coherent(v) && Enabled(v, Fault(a, p))
    ensures PcOk(Acquire(v, a, Want(p), Enter(p)), a) && !Departed(Acquire(v, a, Want(p), Enter(p)).pc[a])
  {
  }

  lemma ChooseMutex(v: Vm, a: Proc)
    requires Mutex(v) && a in v.pc && v.pc[a].Enter?
    ensures Mutex(DoChoose(v, a))
  {
    DoorFrame(v, DoChoose(v, a), a);
    ChooseHeld(v, a);
  }

  lemma ChooseHeld(v: Vm, a: Proc)
    requires Held(v) && a in v.pc && v.pc[a].Enter?
    ensures Held(DoChoose(v, a)) && v.owner == Some(a) && Stage(DoChoose(v, a)).Chosen?
  {
    assert Critical(v.pc[a]) && v.holding == {};
    assert v.holding + {a.asid} == {a.asid};
  }

  lemma ChooseMoves(v: Vm, a: Proc)
    requires Mutex(v) && v.fifo < |v.swap| && a in v.pc && v.pc[a].Enter? && PcOk(v, a)
    ensures Moves(v, DoChoose(v, a), a) && PcOk(DoChoose(v, a), a)
  {
    ChooseHeld(v, a);
    ChoosePc(v, a);
  }

  lemma ChoosePc(v: Vm, a: Proc)
    requires v.fifo < |v.swap| && a in v.pc && v.pc[a].Enter? && PcOk(v, a)
    ensures PcOk(DoChoose(v, a), a) && DoChoose(v, a).fifo < |v.swap|
    ensures SameStore(v, DoChoose(v, a)) && OthersStay(v, DoChoose(v, a), a)
  {
  }

  lemma ChooseInv(v: Vm, a: Proc)
    requires Inv(v) && Enabled(v, Choose(a))
    ensures Moves(v, DoChoose(v, a), a) && Inv(DoChoose(v, a))
  {
    ChooseMutex(v, a);
    ChooseMoves(v, a);
    MovesInv(v, DoChoose(v, a), a);
  }

  lemma ReleaseMutex(v: Vm, a: Proc)
    requires Mutex(v) && v.fifo < |v.swap| && a in v.pc && v.pc[a].Leave?
    ensures Mutex(DoRelease(v, a)) && Moves(v, DoRelease(v, a), a)
    ensures PcOk(DoRelease(v, a), a) && !Departed(DoRelease(v, a).pc[a])
  {
    var v1 := v.(holding := v.holding - {a.asid}, pc := v.pc[a := User]);
    assert Critical(v.pc[a]) && v.owner == Some(a) && v1.holding == {};
    LeaveMutex(v, v1, a);
    LeaveMoves(v, v1, a);
  }

  lemma ReleaseInv(v: Vm, a: Proc)
    requires Inv(v) && Enabled(v, Release(a))
    ensures Moves(v, DoRelease(v, a), a) && Inv(DoRelease(v, a))
  {
    ReleaseMutex(v, a);
    MovesInv(v, DoRelease(v, a), a);
  }

  /** Whoever calls sys2 has not got the flag set, since nobody else with its ASID is inside. */
  lemma NotHolding(v: Vm, a: Proc)
    requires Mutex(v) && OneUser(v) && a in v.pc && !Departed(v.pc[a]) && !Flagged(v.pc[a])
    ensures a.asid !in v.holding
  {
    if a.asid in v.holding {
      assert Active(v, a) && Active(v, v.owner.value);
    }
  }

  lemma ExitMoves(v: Vm, a: Proc)
    requires Mutex(v) && v.fifo < |v.swap| && Enabled(v, Exit(a)) && a.asid !in v.holding
    ensures Moves(v, DoExit(v, a), a) && Mutex(DoExit(v, a)) && PcOk(DoExit(v, a), a) && !Departed(DoExit(v, a).pc[a])
  {
    OutsideMutex(v, DoExit(v, a), a);
  }

  lemma ExitInv(v: Vm, a: Proc)
    requires Inv(v) && Enabled(v, Exit(a))
    ensures Moves(v, DoExit(v, a), a) && Inv(DoExit(v, a))
    ensures a.asid !in v.holding
  {
    NotHolding(v, a);
    ExitMoves(v, a);
    MovesInv(v, DoExit(v, a), a);
  }

  lemma ExitAcquireInv(v: Vm, a: Proc)
    requires Inv(v) && Enabled(v, ExitAcquire(a))
    ensures Moves(v, Acquire(v, a, ExitWant, ExitIn), a) && Inv(Acquire(v, a, ExitWant, ExitIn))
  {
    AcquireMutex(v, a, ExitWant, ExitIn);
    AcquireMoves(v, a, ExitWant, ExitIn);
    ExitAcquirePc(v, a);
    MovesInv(v, Acquire(v, a, ExitWant, ExitIn), a);
  }

  lemma ExitAcquirePc(v: Vm, a: Proc)
    ensures PcOk(Acquire(v, a, ExitWant, ExitIn), a) && !Departed(Acquire(v, a, ExitWant, ExitIn).pc[a])
  {
  }

  lemma ExitReleaseMoves(v: Vm, a: Proc)
    requires Mutex(v) && v.fifo < |v.swap| && a in v.pc && v.pc[a].ExitOut?
    ensures var v' := Free(v.(pc := v.pc[a := Tail])); Moves(v, v', a) && Mutex(v') && v'.pc[a] == Tail
  {
    var v1 := v.(pc := v.pc[a := Tail]);
    LeaveMutex(v, v1, a);
    LeaveMoves(v, v1, a);
  }

  lemma ExitReleaseInv(v: Vm, a: Proc)
    requires Inv(v) && Enabled(v, ExitRelease(a))
    ensures Moves(v, Free(v.(pc := v.pc[a := Tail])), a) && Inv(Free(v.(pc := v.pc[a := Tail])))
  {
    ExitReleaseMoves(v, a);
    MovesInv(v, Free(v.(pc := v.pc[a := Tail])), a);
  }

  lemma GoneInv(v: Vm, a: Proc)
    requires Inv(v) && Enabled(v, Gone(a))
    ensures Moves(v, v.(pc := v.pc[a := Dead]), a) && Inv(v.(pc := v.pc[a := Dead]))
  {
    var v' := v.(pc := v.pc[a := Dead]);
    OutsideMutex(v, v', a);
    MovesInv(v, v', a);
  }

  // ---------------------------------------------------------------- user accesses

  /** No valid entry points to the frame in transit. */
  lemma BusyFrame(v: Vm, p: PageId)
    requires Domains(v) && Tables(v) && p in v.pt && v.pt[p].valid
    ensures 0 <= v.pt[p].frame < |v.swap| && !Busy(v, v.pt[p].frame)
  {
    assert PteOk(v, p);
    assert FrameOk(v, v.pt[p].frame);
  }

  /** Two valid entries never share a frame. */
  lemma OneOwner(v: Vm, p: PageId, q: PageId)
    requires Tables(v) && p in v.pt && q in v.pt && v.pt[p].valid && v.pt[q].valid
    requires v.pt[p].frame == v.pt[q].frame
    ensures p == q
  {
    assert PteOk(v, p) && PteOk(v, q);
  }

  /** Nobody relies on the contents of a frame that is not in transit. */
  lemma FramePcs(v: Vm, f: nat, page: Page)
    requires Mutex(v) && PcsOk(v) && f < |v.frames|
    requires Stage(v).Filled? ==> Stage(v).frame != f
    ensures PcsOk(v.(frames := v.frames[f := page]))
  {
    var v' := v.(frames := v.frames[f := page]);
    forall b | b in v'.pc
      ensures PcOk(v', b)
    {
      assert PcOk(v, b);
      assert v.pc[b].Filled? ==> Stage(v) == v.pc[b];
    }
  }

  lemma FrameInv(v: Vm, f: nat, page: Page)
    requires Inv(v) && f < |v.frames| && (Stage(v).Filled? ==> Stage(v).frame != f)
    ensures Inv(v.(frames := v.frames[f := page]))
  {
    var v' := v.(frames := v.frames[f := page]);
    MutexFrame(v, v');
    TablesFrame(v, v');
    FramePcs(v, f, page);
    UsersFrame(v, v');
  }

  lemma StoreInv(v: Vm, a: Proc, p: PageId, off: int, x: int)
    requires Inv(v) && Enabled(v, Store(a, p, off, x))
    ensures Inv(DoStore(v, p, off, x))
  {
    BusyFrame(v, p);
    var f := v.tlb[p].frame;
    FrameInv(v, f, v.frames[f][off := x]);
  }

  lemma StoreView(v: Vm, a: Proc, p: PageId, off: int, x: int, mem: map<PageId, Page>)
    requires Inv(v) && Enabled(v, Store(a, p, off, x)) && Refines(v, mem)
    ensures Refines(DoStore(v, p, off, x), Effect(v, Store(a, p, off, x), mem))
  {
    var v' := DoStore(v, p, off, x);
    var f := v.tlb[p].frame;
    BusyFrame(v, p);
    ResidentIsNotFlying(v, p);
    forall q | q in v.pt && v.pt[q].valid && v.pt[q].frame == f
      ensures q == p
    {
      OneOwner(v, p, q);
    }
    WrittenFrame(v, v', p, v.frames[f][off := x], mem);
  }

  lemma WrittenFrame(v: Vm, v': Vm, p: PageId, page: Page, mem: map<PageId, Page>)
    requires Refines(v, mem) && p in v.pt && v.pt[p].valid && !Flying(v, p) && Stage(v') == Stage(v)
    requires 0 <= v.pt[p].frame < |v.frames| && (Stage(v).Writing? ==> Stage(v).frame != v.pt[p].frame)
    requires v'.pt == v.pt && v'.flash == v.flash && v'.frames == v.frames[v.pt[p].frame := page]
    requires forall q :: q in v.pt && v.pt[q].valid && v.pt[q].frame == v.pt[p].frame ==> q == p
    ensures Refines(v', mem[p := page])
  {
    assert forall q :: Flying(v', q) <==> Flying(v, q);
  }

  lemma ResidentIsNotFlying(v: Vm, p: PageId)
    requires Inv(v) && p in v.pt && v.pt[p].valid
    ensures !Flying(v, p)
  {
    if Stage(v).Writing? {
      assert PcOk(v, v.owner.value);
      assert FrameOk(v, Stage(v).frame);
    }
  }

  lemma RefillUsers(v: Vm, a: Proc, p: PageId, evicted: set<PageId>)
    requires GoneOk(v) && OneUser(v) && p in v.pt && Active(v, a) && p.asid == a.asid
    ensures GoneOk(DoRefill(v, p, evicted)) && OneUser(DoRefill(v, p, evicted))
  {
    var v' := DoRefill(v, p, evicted);
    assert SameUsers(v, v');
    forall q | Resident(v', q)
      ensures InUse(v', q.asid)
    {
      if q == p {
        assert Active(v', a);
      } else {
        assert Resident(v, q);
        var b :| Active(v, b) && b.asid == q.asid;
        assert Active(v', b);
      }
    }
  }

  lemma RefillInv(v: Vm, a: Proc, p: PageId, evicted: set<PageId>)
    requires Inv(v) && Enabled(v, Refill(a, p, evicted))
    ensures Inv(DoRefill(v, p, evicted))
  {
    var v' := DoRefill(v, p, evicted);
    MutexFrame(v, v');
    TablesFrame(v, v');
    SamePcs(v, v');
    RefillUsers(v, a, p, evicted);
  }

  lemma SamePcs(v: Vm, v': Vm)
    requires PcsOk(v) && v'.pc == v.pc && v'.pt == v.pt && v'.swap == v.swap && v'.frames == v.frames && v'.flash == v.flash
    ensures PcsOk(v')
  {
    forall b | b in v'.pc
      ensures PcOk(v', b)
    {
      assert PcOk(v, b);
    }
  }

  lemma SameStageView(v: Vm, v': Vm, mem: map<PageId, Page>)
    requires Refines(v, mem) && v'.pt == v.pt && v'.frames == v.frames && v'.flash == v.flash && Stage(v') == Stage(v)
    ensures Refines(v', mem)
  {
    assert forall q :: Flying(v', q) <==> Flying(v, q);
  }

  // ---------------------------------------------------------------- eviction

  /** The victim of an occupied frame: the page its swap entry names, resident there. */
  lemma Victim(v: Vm, f: nat)
    requires Domains(v) && Tables(v) && f < |v.swap| && v.swap[f].asid != -1 && !Busy(v, f)
    ensures v.swap[f].pte.Some?
    ensures var x := v.swap[f].pte.value;
            x in v.pt && v.pt[x] == Pte(f, true) && Names(v.swap[f], x) &&
            x == PageId(v.swap[f].asid, GetFlashBlock(v.swap[f].pageNo))
  {
    assert FrameOk(v, f);
  }

  /** The state after the window in terms of the victim. */
  lemma Evicts(v: Vm, a: Proc) returns (x: PageId)
    requires Domains(v) && Mutex(v) && Tables(v) && Enabled(v, Evict(a)) && v.swap[v.pc[a].frame].asid != -1
    ensures var f := v.pc[a].frame;
            && x in v.pt && v.pt[x] == Pte(f, true) && Names(v.swap[f], x)
            && DoEvict(v, a) == v.(pt := v.pt[x := Pte(f, false)], tlb := SetTlb(v.tlb, x, Pte(f, false)),
                                   pc := v.pc[a := Writing(v.pc[a].page, f, x)])
    ensures Stage(v) == v.pc[a] && Stage(DoEvict(v, a)) == Writing(v.pc[a].page, v.pc[a].frame, x)
    ensures Mutex(DoEvict(v, a))
  {
    AdvanceMutex(v, DoEvict(v, a), a);
    Victim(v, v.pc[a].frame);
    x := v.swap[v.pc[a].frame].pte.value;
  }

  lemma EvictTables(v: Vm, v': Vm, f: nat, x: PageId)
    requires Tables(v) && f < |v.swap| && x in v.pt && v.pt[x] == Pte(f, true) && Names(v.swap[f], x)
    requires !InTransit(Stage(v)) && InTransit(Stage(v')) && Stage(v').frame == f
    requires v'.swap == v.swap && v'.pt == v.pt[x := Pte(f, false)]
    ensures Tables(v')
  {
    forall g: nat | g < |v'.swap|
      ensures FrameOk(v', g)
    {
      assert FrameOk(v, g);
    }
    forall q | q in v'.pt
      ensures PteOk(v', q)
    {
      assert PteOk(v, q);
    }
  }

  /** Nobody at another point minds that an entry becomes invalid. */
  lemma EvictPcs(v: Vm, v': Vm, a: Proc, f: nat, x: PageId)
    requires Mutex(v) && PcsOk(v) && v.owner == Some(a) && x in v.pt && v'.pt == v.pt[x := Pte(f, false)]
    requires v'.swap == v.swap && a in v'.pc && v'.pc == v.pc[a := v'.pc[a]] && PcOk(v', a)
    ensures PcsOk(v')
  {
    forall b | b in v'.pc
      ensures PcOk(v', b)
    {
      assert b != a ==> PcOk(v, b) && !Critical(v.pc[b]);
    }
  }

  lemma EvictRest(v: Vm, v': Vm, a: Proc, f: nat, x: PageId)
    requires Domains(v) && Coherent(v) && x in v.pt && v.pt[x] == Pte(f, true)
    requires v' == v.(pt := v.pt[x := Pte(f, false)], tlb := SetTlb(v.tlb, x, Pte(f, false)), pc := v'.pc)
    ensures Domains(v') && Coherent(v') && forall p :: Resident(v', p) ==> Resident(v, p)
  {
  }

  lemma EvictPc(v: Vm, v': Vm, a: Proc, f: nat, x: PageId)
    requires a in v.pc && v.pc[a].Chosen? && PcOk(v, a) && f == v.pc[a].frame
    requires x in v.pt && v.pt[x].valid && f < |v.swap| && Names(v.swap[f], x)
    requires v'.swap == v.swap && v'.pt == v.pt[x := Pte(f, false)] && v'.pc == v.pc[a := Writing(v.pc[a].page, f, x)]
    ensures PcOk(v', a)
  {
  }

  lemma EvictInv(v: Vm, a: Proc)
    requires Inv(v) && Enabled(v, Evict(a))
    ensures Inv(DoEvict(v, a))
  {
    if v.swap[v.pc[a].frame].asid != -1 {
      EvictFull(v, a);
    } else {
      assert FrameOk(v, v.pc[a].frame);
      EvictFree(v, a);
    }
  }

  lemma EvictFull(v: Vm, a: Proc)
    requires Inv(v) && Enabled(v, Evict(a)) && v.swap[v.pc[a].frame].asid != -1
    ensures Inv(DoEvict(v, a))
  {
    var v', f := DoEvict(v, a), v.pc[a].frame;
    var x := Evicts(v, a);
    EvictTables(v, v', f, x);
    EvictPc(v, v', a, f, x);
    EvictPcs(v, v', a, f, x);
    EvictRest(v, v', a, f, x);
    SameUsersMove(v, v', a);
    UsersFrame(v, v');
  }

  lemma EvictFree(v: Vm, a: Proc)
    requires Inv(v) && Enabled(v, Evict(a)) && v.swap[v.pc[a].frame] == FREE_FRAME
    ensures Inv(DoEvict(v, a))
  {
    assert PcOk(v, a);
    HolderInv(v, a, Reading(v.pc[a].page, v.pc[a].frame));
  }

  // ---------------------------------------------------------------- the holder moves on

  /** The frame in transit may be taken without touching any table. */
  lemma ReadTables(v: Vm, v': Vm)
    requires Tables(v) && v'.swap == v.swap && v'.pt == v.pt
    requires InTransit(Stage(v')) && Stage(v').frame < |v.swap|
    requires v.swap[Stage(v').frame] == FREE_FRAME || Busy(v, Stage(v').frame)
    requires forall g: int :: Busy(v, g) ==> g == Stage(v').frame
    ensures Tables(v')
  {
    forall g: nat | g < |v'.swap|
      ensures FrameOk(v', g)
    {
      assert FrameOk(v, g);
    }
    forall q | q in v'.pt
      ensures PteOk(v', q)
    {
      assert PteOk(v, q);
    }
  }

  lemma HolderTables(v: Vm, a: Proc, next: Pc)
    requires Mutex(v) && Tables(v) && a in v.pc && Flagged(v.pc[a]) && InTransit(next) && next.frame < |v.swap|
    requires v.pc[a].Chosen? || InTransit(v.pc[a])
    requires v.pc[a].frame == next.frame && (v.pc[a].Chosen? ==> v.swap[next.frame] == FREE_FRAME)
    ensures Tables(v.(pc := v.pc[a := next])) && Mutex(v.(pc := v.pc[a := next]))
  {
    var v' := v.(pc := v.pc[a := next]);
    AdvanceMutex(v, v', a);
    ReadTables(v, v');
  }

  /** The holder goes on to the next point with the same frame, tables and memory as they are. */
  lemma HolderInv(v: Vm, a: Proc, next: Pc)
    requires Inv(v) && a in v.pc && Flagged(v.pc[a]) && InTransit(next) && next.frame < |v.swap|
    requires v.pc[a].Chosen? || InTransit(v.pc[a])
    requires v.pc[a].frame == next.frame && (v.pc[a].Chosen? ==> v.swap[next.frame] == FREE_FRAME)
    requires PcOk(v.(pc := v.pc[a := next]), a)
    ensures Inv(v.(pc := v.pc[a := next]))
  {
    var v' := v.(pc := v.pc[a := next]);
    HolderTables(v, a, next);
    HolderOthers(v, a, next);
    MovesPcs(v, v', a);
    MovesUsers(v, v', a);
  }

  lemma HolderOthers(v: Vm, a: Proc, next: Pc)
    requires a in v.pc
    ensures SameStore(v, v.(pc := v.pc[a := next])) && OthersStay(v, v.(pc := v.pc[a := next]), a)
  {
  }

  lemma EvictView(v: Vm, a: Proc, mem: map<PageId, Page>)
    requires Domains(v) && Mutex(v) && Tables(v) && Enabled(v, Evict(a)) && Refines(v, mem)
    ensures Refines(DoEvict(v, a), mem)
  {
    var v' := DoEvict(v, a);
    var f := v.pc[a].frame;
    if v.swap[f].asid != -1 {
      var x := Evicts(v, a);
      VictimView(v, v', f, x, mem);
    } else {
      AdvanceMutex(v, v', a);
      QuietView(v, v', mem);
    }
  }

  /** The victim's frame stands in for its entry until it is written back. */
  lemma VictimView(v: Vm, v': Vm, f: nat, x: PageId, mem: map<PageId, Page>)
    requires Refines(v, mem) && !Stage(v).Writing? && x in v.pt && v.pt[x] == Pte(f, true)
    requires v'.pt == v.pt[x := Pte(f, false)] && v'.frames == v.frames && v'.flash == v.flash
    requires Stage(v').Writing? && Stage(v').frame == f && Stage(v').victim == x
    ensures Refines(v', mem)
  {
    assert forall q :: Flying(v', q) <==> q == x;
    assert forall q :: !Flying(v, q);
  }

  lemma QuietView(v: Vm, v': Vm, mem: map<PageId, Page>)
    requires Refines(v, mem) && v'.pt == v.pt && v'.frames == v.frames && v'.flash == v.flash
    requires !Stage(v).Writing? && !Stage(v').Writing?
    ensures Refines(v', mem)
  {
    assert forall q :: !Flying(v', q) && !Flying(v, q);
  }

  // ---------------------------------------------------------------- write-back

  lemma DmaOutPcs(v: Vm, a: Proc, page: Page)
    requires Mutex(v) && PcsOk(v) && a in v.pc && v.pc[a].Writing?
    ensures PcsOk(v.(flash := v.flash[v.pc[a].victim := page]))
  {
    var v' := v.(flash := v.flash[v.pc[a].victim := page]);
    forall b | b in v'.pc
      ensures PcOk(v', b)
    {
      assert PcOk(v, b);
    }
  }

  lemma DmaOutInv(v: Vm, a: Proc, page: Page)
    requires Inv(v) && a in v.pc && v.pc[a].Writing?
    ensures Inv(v.(flash := v.flash[v.pc[a].victim := page]))
  {
    var v' := v.(flash := v.flash[v.pc[a].victim := page]);
    assert PcOk(v, a);
    MutexFrame(v, v');
    TablesFrame(v, v');
    DmaOutPcs(v, a, page);
    UsersFrame(v, v');
  }

  lemma DmaOutView(v: Vm, a: Proc, page: Page, mem: map<PageId, Page>)
    requires Mutex(v) && a in v.pc && v.pc[a].Writing? && Refines(v, mem)
    ensures Refines(v.(flash := v.flash[v.pc[a].victim := page]), mem)
  {
    var v' := v.(flash := v.flash[v.pc[a].victim := page]);
    assert forall q :: Flying(v', q) <==> Flying(v, q);
    assert Flying(v, v.pc[a].victim);
  }

  lemma WriteDoneInv(v: Vm, a: Proc)
    requires Inv(v) && Enabled(v, WriteDone(a))
    ensures Inv(DoWriteDone(v, a))
  {
    var Writing(p, f, x) := v.pc[a];
    DmaOutInv(v, a, v.frames[f]);
    WriteEnds(v.(flash := v.flash[x := v.frames[f]]), a);
  }

  /** The write-back over, whatever it left on the device: on to the read. */
  lemma WriteEnds(v: Vm, a: Proc)
    requires Inv(v) && a in v.pc && v.pc[a].Writing?
    ensures Inv(v.(pc := v.pc[a := Reading(v.pc[a].page, v.pc[a].frame)]))
  {
    assert PcOk(v, a);
    HolderInv(v, a, Reading(v.pc[a].page, v.pc[a].frame));
  }

  lemma WriteDoneView(v: Vm, a: Proc, mem: map<PageId, Page>)
    requires Inv(v) && Enabled(v, WriteDone(a)) && Refines(v, mem)
    ensures Refines(DoWriteDone(v, a), mem)
  {
    var Writing(p, f, x) := v.pc[a];
    DmaOutView(v, a, v.frames[f], mem);
    DmaOutInv(v, a, v.frames[f]);
    WriteEndsView(v.(flash := v.flash[x := v.frames[f]]), a, mem);
  }

  /** Ending the write-back is invisible exactly when the block holds what the frame held. */
  lemma WriteEndsView(v: Vm, a: Proc, mem: map<PageId, Page>)
    requires Inv(v) && a in v.pc && v.pc[a].Writing? && Refines(v, mem)
    ensures v.pc[a].victim in v.flash && v.pc[a].frame < |v.frames|
    ensures Refines(v.(pc := v.pc[a := Reading(v.pc[a].page, v.pc[a].frame)]), mem) <==>
              v.flash[v.pc[a].victim] == v.frames[v.pc[a].frame]
  {
    var v' := v.(pc := v.pc[a := Reading(v.pc[a].page, v.pc[a].frame)]);
    AdvanceMutex(v, v', a);
    assert PcOk(v, a);
    assert FrameOk(v, v.pc[a].frame);
    LandedView(v, v', v.pc[a].victim, mem);
  }

  lemma LandedView(v: Vm, v': Vm, x: PageId, mem: map<PageId, Page>)
    requires Refines(v, mem) && Stage(v).Writing? && Stage(v).victim == x && x in v.pt && !v.pt[x].valid && x in v.flash
    requires v'.pt == v.pt && v'.frames == v.frames && v'.flash == v.flash && !Stage(v').Writing?
    ensures Refines(v', mem) <==> v.flash[x] == v.frames[Stage(v).frame]
  {
    assert forall q :: Flying(v, q) <==> q == x;
    assert forall q :: !Flying(v', q);
  }

  // ---------------------------------------------------------------- read

  /** Whatever reaches the frame in transit, nobody sees it. */
  lemma DmaInInv(v: Vm, a: Proc, page: Page)
    requires Inv(v) && a in v.pc && v.pc[a].Reading?
    ensures v.pc[a].frame < |v.frames| && Inv(v.(frames := v.frames[v.pc[a].frame := page]))
  {
    assert PcOk(v, a);
    assert Stage(v) == v.pc[a];
    FrameInv(v, v.pc[a].frame, page);
  }

  lemma DmaInView(v: Vm, a: Proc, page: Page, mem: map<PageId, Page>)
    requires Inv(v) && a in v.pc && v.pc[a].Reading? && Refines(v, mem)
    ensures v.pc[a].frame < |v.frames| && Refines(v.(frames := v.frames[v.pc[a].frame := page]), mem)
  {
    assert PcOk(v, a);
    assert Stage(v) == v.pc[a];
    forall q | q in v.pt && v.pt[q].valid
      ensures v.pt[q].frame != v.pc[a].frame
    {
      BusyFrame(v, q);
    }
    UnseenFrame(v, v.pc[a].frame, page, mem);
  }

  lemma UnseenFrame(v: Vm, f: nat, page: Page, mem: map<PageId, Page>)
    requires Refines(v, mem) && !Stage(v).Writing? && f < |v.frames|
    requires forall q :: q in v.pt && v.pt[q].valid ==> v.pt[q].frame != f
    ensures Refines(v.(frames := v.frames[f := page]), mem)
  {
    var v' := v.(frames := v.frames[f := page]);
    assert Stage(v') == Stage(v);
    assert forall q :: !Flying(v', q) && !Flying(v, q);
  }

  lemma ReadDoneInv(v: Vm, a: Proc)
    requires Inv(v) && Enabled(v, ReadDone(a))
    ensures Inv(DoReadDone(v, a))
  {
    var Reading(p, f) := v.pc[a];
    DmaInInv(v, a, v.flash[p]);
    ReadEnds(v.(frames := v.frames[f := v.flash[p]]), a);
  }

  lemma ReadEnds(v: Vm, a: Proc)
    requires Inv(v) && a in v.pc && v.pc[a].Reading? && v.pc[a].page in v.flash && v.pc[a].frame < |v.frames|
    requires v.frames[v.pc[a].frame] == v.flash[v.pc[a].page]
    ensures Inv(v.(pc := v.pc[a := Filled(v.pc[a].page, v.pc[a].frame)]))
  {
    assert PcOk(v, a);
    HolderInv(v, a, Filled(v.pc[a].page, v.pc[a].frame));
  }

  lemma ReadDoneView(v: Vm, a: Proc, mem: map<PageId, Page>)
    requires Inv(v) && Enabled(v, ReadDone(a)) && Refines(v, mem)
    ensures Refines(DoReadDone(v, a), mem)
  {
    var Reading(p, f) := v.pc[a];
    DmaInView(v, a, v.flash[p], mem);
    var v1 := v.(frames := v.frames[f := v.flash[p]]);
    MutexFrame(v, v1);
    AdvanceMutex(v1, DoReadDone(v, a), a);
    QuietView(v1, DoReadDone(v, a), mem);
  }

  // ---------------------------------------------------------------- installation

  lemma VpnInverse(idx: int)
    requires 0 <= idx < MAXPAGES
    ensures GetFlashBlock(Vpn(idx)) == idx
  {
  }

  /** The state after the second window in terms of the page and the frame. */
  lemma Installs(v: Vm, a: Proc)
    requires Domains(v) && Mutex(v) && Enabled(v, Install(a)) && PcOk(v, a)
    ensures var Filled(p, f) := v.pc[a];
            && p in v.pt && p.asid == a.asid && !v.pt[p].valid && f < |v.frames| && p in v.flash && v.frames[f] == v.flash[p]
            && DoInstall(v, a) == v.(swap := v.swap[f := Swap(p.asid, Vpn(p.idx), Some(p))], pt := v.pt[p := Pte(f, true)],
                                     tlb := SetTlb(v.tlb, p, Pte(f, true)), pc := v.pc[a := Leave])
    ensures Mutex(DoInstall(v, a)) && v.owner == Some(a) && Stage(v) == v.pc[a] && Stage(DoInstall(v, a)) == Leave
  {
    VpnInverse(v.pc[a].page.idx);
    AdvanceMutex(v, DoInstall(v, a), a);
  }

  lemma InstallTables(v: Vm, v': Vm, p: PageId, f: nat)
    requires Domains(v) && Tables(v) && f < |v.swap| && p in v.pt && !v.pt[p].valid
    requires Stage(v).Filled? && Stage(v).frame == f && !InTransit(Stage(v'))
    requires v'.swap == v.swap[f := Swap(p.asid, Vpn(p.idx), Some(p))] && v'.pt == v.pt[p := Pte(f, true)]
    ensures Tables(v')
  {
    forall g: nat | g < |v'.swap|
      ensures FrameOk(v', g)
    {
      assert FrameOk(v, g);
    }
    forall q | q in v'.pt
      ensures PteOk(v', q)
    {
      assert PteOk(v, q);
      if v.pt[q].valid {
        BusyFrame(v, q);
      }
    }
  }

  /** Nobody else misses the page: nobody else has its ASID and is still in pager. */
  lemma InstallPcs(v: Vm, v': Vm, a: Proc, p: PageId, f: nat)
    requires Mutex(v) && PcsOk(v) && OneUser(v) && a in v.pc && v.owner == Some(a) && Active(v, a) && p.asid == a.asid
    requires v'.pt == v.pt[p := Pte(f, true)] && |v'.swap| == |v.swap| && v'.pc == v.pc[a := Leave]
    ensures PcsOk(v')
  {
    forall b | b in v'.pc
      ensures PcOk(v', b)
    {
      if b != a {
        assert PcOk(v, b) && !Critical(v.pc[b]);
        assert Active(v, b) ==> b.asid != a.asid;
      }
    }
  }

  lemma InstallUsers(v: Vm, v': Vm, a: Proc, p: PageId, f: nat)
    requires GoneOk(v) && OneUser(v) && Active(v, a) && p in v.pt && p.asid == a.asid
    requires v'.pt == v.pt[p := Pte(f, true)] && v'.tlb.Keys == v.tlb.Keys && v'.pc == v.pc[a := Leave]
    ensures GoneOk(v') && OneUser(v')
  {
    SameUsersMove(v, v', a);
    forall q | Resident(v', q)
      ensures InUse(v', q.asid)
    {
      if q == p {
        assert Active(v', a);
      } else {
        assert Resident(v, q);
        var b :| Active(v, b) && b.asid == q.asid;
        assert Active(v', b);
      }
    }
  }

  lemma InstallRest(v: Vm, v': Vm, p: PageId, f: nat)
    requires Domains(v) && Coherent(v) && p in v.pt && |v'.swap| == |v.swap| && v'.fifo == v.fifo
    requires v'.pt == v.pt[p := Pte(f, true)] && v'.tlb == SetTlb(v.tlb, p, Pte(f, true))
    requires v'.frames == v.frames && v'.flash == v.flash
    ensures Domains(v') && Coherent(v')
  {
  }

  lemma InstallInv(v: Vm, a: Proc)
    requires Inv(v) && Enabled(v, Install(a))
    ensures Inv(DoInstall(v, a))
  {
    var v' := DoInstall(v, a);
    var Filled(p, f) := v.pc[a];
    Installs(v, a);
    InstallTables(v, v', p, f);
    InstallPcs(v, v', a, p, f);
    InstallUsers(v, v', a, p, f);
    InstallRest(v, v', p, f);
  }

  lemma InstallView(v: Vm, a: Proc, mem: map<PageId, Page>)
    requires Inv(v) && Enabled(v, Install(a)) && Refines(v, mem)
    ensures Refines(DoInstall(v, a), mem)
  {
    Installs(v, a);
    FilledView(v, DoInstall(v, a), v.pc[a].page, v.pc[a].frame, mem);
  }

  lemma FilledView(v: Vm, v': Vm, p: PageId, f: nat, mem: map<PageId, Page>)
    requires Refines(v, mem) && !Stage(v).Writing? && !Stage(v').Writing?
    requires p in v.pt && !v.pt[p].valid && f < |v.frames| && p in v.flash && v.frames[f] == v.flash[p]
    requires v'.pt == v.pt[p := Pte(f, true)] && v'.frames == v.frames && v'.flash == v.flash
    ensures Refines(v', mem)
  {
    assert forall q :: !Flying(v', q) && !Flying(v, q);
  }

  // ---------------------------------------------------------------- exit

  /** What the loop of freeSwapFrames does to the entries, whoever has the ASID by then. */
  lemma FreeFramesEntries(v: Vm, a: Proc)
    requires Domains(v) && Tables(v) && a in v.pc
    ensures forall p :: p in v.pt && p.asid == a.asid ==> !DoFreeFrames(v, a).pt[p].valid
    ensures forall p :: p in v.pt && p.asid != a.asid ==> DoFreeFrames(v, a).pt[p] == v.pt[p]
  {
    var v' := DoFreeFrames(v, a);
    forall p | p in v.pt
      ensures p.asid == a.asid ==> !v'.pt[p].valid
      ensures p.asid != a.asid ==> v'.pt[p] == v.pt[p]
    {
      assert PteOk(v, p);
      if Named(v.swap, a.asid, p) {
        var g :| 0 <= g < |v.swap| && v.swap[g].asid == a.asid && v.swap[g].pte == Some(p);
        assert FrameOk(v, g);
      }
    }
  }

  /** It leaves pool and page tables in agreement, whoever has the ASID by then. */
  lemma FreeFramesTables(v: Vm, a: Proc)
    requires Domains(v) && Mutex(v) && Tables(v) && Enabled(v, FreeFrames(a))
    ensures Tables(DoFreeFrames(v, a)) && Mutex(DoFreeFrames(v, a))
    ensures Stage(v) == ExitIn && Stage(DoFreeFrames(v, a)) == ExitOut
    ensures DoFreeFrames(v, a).tlb == map[]
    ensures forall f :: 0 <= f < |v.swap| ==> DoFreeFrames(v, a).swap[f] == if v.swap[f].asid == a.asid then FREE_FRAME else v.swap[f]
    ensures forall p :: p in v.pt && p.asid == a.asid ==> !DoFreeFrames(v, a).pt[p].valid
    ensures forall p :: p in v.pt && p.asid != a.asid ==> DoFreeFrames(v, a).pt[p] == v.pt[p]
  {
    var v' := DoFreeFrames(v, a);
    AdvanceMutex(v, v', a);
    FreeFramesEntries(v, a);
    VacatedTables(v, v', a.asid);
  }

  lemma VacatedTables(v: Vm, v': Vm, asid: int)
    requires Tables(v) && !InTransit(Stage(v)) && !InTransit(Stage(v'))
    requires v'.swap == Vacated(v.swap, asid) && v'.pt.Keys == v.pt.Keys
    requires forall p :: p in v.pt && p.asid == asid ==> !v'.pt[p].valid
    requires forall p :: p in v.pt && p.asid != asid ==> v'.pt[p] == v.pt[p]
    ensures Tables(v')
  {
    forall g: nat | g < |v'.swap|
      ensures FrameOk(v', g)
    {
      assert FrameOk(v, g);
    }
    forall q | q in v'.pt
      ensures PteOk(v', q)
    {
      assert PteOk(v, q);
    }
  }

  lemma FreeFramesPcs(v: Vm, v': Vm, a: Proc)
    requires Mutex(v) && PcsOk(v) && v.owner == Some(a) && v'.pt.Keys == v.pt.Keys && |v'.swap| == |v.swap|
    requires v'.pc == v.pc[a := ExitOut] && forall p :: p in v.pt ==> (v'.pt[p].valid ==> v.pt[p].valid)
    ensures PcsOk(v')
  {
    forall b | b in v'.pc
      ensures PcOk(v', b)
    {
      assert b != a ==> PcOk(v, b) && !Critical(v.pc[b]);
    }
  }

  lemma FreeFramesUsers(v: Vm, v': Vm, a: Proc)
    requires GoneOk(v) && OneUser(v) && a in v.pc && !Departed(v.pc[a]) && v'.pc == v.pc[a := ExitOut]
    requires v'.tlb == map[] && v'.pt.Keys == v.pt.Keys
    requires forall p :: p in v.pt && p.asid == a.asid ==> !v'.pt[p].valid
    requires forall p :: p in v.pt && p.asid != a.asid ==> v'.pt[p] == v.pt[p]
    ensures GoneOk(v') && OneUser(v')
  {
    assert forall b :: Active(v', b) <==> Active(v, b) && b != a;
    forall p | Resident(v', p)
      ensures InUse(v', p.asid)
    {
      assert Resident(v, p) && p.asid != a.asid;
      var b :| Active(v, b) && b.asid == p.asid;
      assert Active(v', b);
    }
  }

  lemma FreeFramesInv(v: Vm, a: Proc)
    requires Inv(v) && Enabled(v, FreeFrames(a))
    ensures Inv(DoFreeFrames(v, a))
  {
    var v' := DoFreeFrames(v, a);
    FreeFramesTables(v, a);
    FreeFramesPcs(v, v', a);
    FreeFramesUsers(v, v', a);
  }

  lemma FreeFramesView(v: Vm, a: Proc, mem: map<PageId, Page>)
    requires Domains(v) && Mutex(v) && Tables(v) && Enabled(v, FreeFrames(a)) && Refines(v, mem)
    ensures Refines(DoFreeFrames(v, a), Effect(v, FreeFrames(a), mem))
  {
    FreeFramesTables(v, a);
    FreedView(v, DoFreeFrames(v, a), a.asid, mem);
  }

  lemma FreedView(v: Vm, v': Vm, asid: int, mem: map<PageId, Page>)
    requires Refines(v, mem) && !Stage(v).Writing? && !Stage(v').Writing?
    requires v'.pt.Keys == v.pt.Keys && v'.frames == v.frames && v'.flash == v.flash && v.pt.Keys == v.flash.Keys
    requires forall p :: p in v.pt && p.asid == asid ==> !v'.pt[p].valid
    requires forall p :: p in v.pt && p.asid != asid ==> v'.pt[p] == v.pt[p]
    ensures Refines(v', Reverted(v, asid, mem))
  {
    assert forall q :: !Flying(v', q) && !Flying(v, q);
  }

  // ---------------------------------------------------------------- creation

  lemma CreateMutex(v: Vm, a: Proc)
    requires Mutex(v) && a !in v.pc
    ensures Mutex(DoCreate(v, a)) && Stage(DoCreate(v, a)) == Stage(v)
  {
    OutsideMutex(v, DoCreate(v, a), a);
  }

  /** Nobody with the ASID has anything resident. */
  lemma Unused(v: Vm, a: Proc)
    requires GoneOk(v) && Enabled(v, Create(a)) && Guard(v, Create(a))
    ensures forall p :: p in v.pt && p.asid == a.asid ==> !v.pt[p].valid && p !in v.tlb
  {
    forall p | p in v.pt && p.asid == a.asid
      ensures !Resident(v, p)
    {
      assert !InUse(v, a.asid);
    }
  }

  /** Reinitialising entries that are all invalid. */
  lemma BlankTables(v: Vm, v': Vm, asid: int)
    requires Tables(v) && v'.pt == Blank(v.pt, asid) && v'.swap == v.swap && Stage(v') == Stage(v)
    requires forall p :: p in v.pt && p.asid == asid ==> !v.pt[p].valid
    ensures Tables(v')
  {
    forall g: nat | g < |v'.swap|
      ensures FrameOk(v', g)
    {
      assert FrameOk(v, g);
    }
    forall q | q in v'.pt
      ensures PteOk(v', q)
    {
      assert PteOk(v, q);
    }
  }

  lemma CreatePcs(v: Vm, a: Proc)
    requires PcsOk(v)
    ensures PcsOk(DoCreate(v, a))
  {
    var v' := DoCreate(v, a);
    forall b | b in v'.pc
      ensures PcOk(v', b)
    {
      assert b != a ==> PcOk(v, b);
    }
  }

  lemma CreateUsers(v: Vm, a: Proc)
    requires GoneOk(v) && OneUser(v) && a !in v.pc
    requires forall b :: b in v.pc && b.asid == a.asid ==> Departed(v.pc[b])
    ensures GoneOk(DoCreate(v, a)) && OneUser(DoCreate(v, a))
  {
    var v' := DoCreate(v, a);
    assert forall b :: Active(v', b) <==> Active(v, b) || b == a;
    forall p | Resident(v', p)
      ensures InUse(v', p.asid)
    {
      assert Resident(v, p);
      var b :| Active(v, b) && b.asid == p.asid;
      assert Active(v', b);
    }
  }

  lemma CreateInv(v: Vm, a: Proc)
    requires Inv(v) && Enabled(v, Create(a)) && Guard(v, Create(a))
    ensures Inv(DoCreate(v, a))
  {
    CreateMutex(v, a);
    Unused(v, a);
    BlankTables(v, DoCreate(v, a), a.asid);
    CreatePcs(v, a);
    CreateUsers(v, a);
    CreateRest(v, a);
  }

  lemma CreateRest(v: Vm, a: Proc)
    requires Domains(v) && Coherent(v) && forall p :: p in v.pt && p.asid == a.asid ==> p !in v.tlb
    ensures Domains(DoCreate(v, a)) && Coherent(DoCreate(v, a))
  {
  }

  lemma CreateView(v: Vm, a: Proc, mem: map<PageId, Page>)
    requires Mutex(v) && GoneOk(v) && Enabled(v, Create(a)) && Guard(v, Create(a)) && Refines(v, mem)
    ensures Refines(DoCreate(v, a), mem)
  {
    CreateMutex(v, a);
    Unused(v, a);
    BlankView(v, DoCreate(v, a), a.asid, mem);
  }

  lemma BlankView(v: Vm, v': Vm, asid: int, mem: map<PageId, Page>)
    requires Refines(v, mem) && v'.pt == Blank(v.pt, asid) && v'.frames == v.frames && v'.flash == v.flash
    requires Stage(v') == Stage(v) && forall p :: p in v.pt && p.asid == asid ==> !v.pt[p].valid
    ensures Refines(v', mem)
  {
    assert forall q :: Flying(v', q) <==> Flying(v, q);
  }

  /** A process started while a predecessor still has its frames to give up shares them with it. */
  lemma CreateTooEarly(v: Vm, a: Proc)
    requires Enabled(v, Create(a)) && !Guard(v, Create(a))
    ensures !OneUser(DoCreate(v, a))
  {
    var v' := DoCreate(v, a);
    var b :| b in v.pc && b.asid == a.asid && !Departed(v.pc[b]);
    assert Active(v', a) && Active(v', b);
  }
}
