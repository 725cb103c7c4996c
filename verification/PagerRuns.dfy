/** Paging over whole runs, and where failing devices or reused ASIDs break it. */
module PagerRuns {
  import opened Queues
  import opened Pager
  import opened PagerProof

  // ---------------------------------------------------------------- one step

  /** The step keeps the invariant and has its stated effect and no other, if and only if its guard
      holds. */
  ghost predicate Kept(v: Vm, act: Act, mem: map<PageId, Page>)
    requires Enabled(v, act)
  {
    Inv(Step(v, act)) && Refines(Step(v, act), Effect(v, act, mem)) <==> Guard(v, act)
  }

  /** A step that only moves a process along shows nobody anything. */
  lemma MoveKeeps(v: Vm, act: Act, v': Vm, a: Proc, mem: map<PageId, Page>)
    requires Enabled(v, act) && Step(v, act) == v' && Inv(v') && Moves(v, v', a) && Refines(v, mem)
    requires act.Fault? || act.Choose? || act.Release? || act.Exit? || act.ExitAcquire? || act.ExitRelease? || act.Gone?
    ensures Kept(v, act, mem)
  {
    MovesView(v, v', a, mem);
  }

  lemma StoreKeeps(v: Vm, a: Proc, p: PageId, off: int, x: int, mem: map<PageId, Page>)
    requires Inv(v) && Enabled(v, Store(a, p, off, x)) && Refines(v, mem)
    ensures Kept(v, Store(a, p, off, x), mem)
  {
    StoreInv(v, a, p, off, x);
    StoreView(v, a, p, off, x, mem);
  }

  lemma RefillKeeps(v: Vm, a: Proc, p: PageId, evicted: set<PageId>, mem: map<PageId, Page>)
    requires Inv(v) && Enabled(v, Refill(a, p, evicted)) && Refines(v, mem)
    ensures Kept(v, Refill(a, p, evicted), mem)
  {
    RefillInv(v, a, p, evicted);
    SameStageView(v, DoRefill(v, p, evicted), mem);
  }

  lemma FaultKeeps(v: Vm, a: Proc, p: PageId, mem: map<PageId, Page>)
    requires Inv(v) && Enabled(v, Fault(a, p)) && Refines(v, mem)
    ensures Kept(v, Fault(a, p), mem)
  {
    FaultInv(v, a, p);
    MoveKeeps(v, Fault(a, p), Acquire(v, a, Want(p), Enter(p)), a, mem);
  }

  lemma ChooseKeeps(v: Vm, a: Proc, mem: map<PageId, Page>)
    requires Inv(v) && Enabled(v, Choose(a)) && Refines(v, mem)
    ensures Kept(v, Choose(a), mem)
  {
    ChooseInv(v, a);
    MoveKeeps(v, Choose(a), DoChoose(v, a), a, mem);
  }

  lemma EvictKeeps(v: Vm, a: Proc, mem: map<PageId, Page>)
    requires Inv(v) && Enabled(v, Evict(a)) && Refines(v, mem)
    ensures Kept(v, Evict(a), mem)
  {
    EvictInv(v, a);
    EvictView(v, a, mem);
  }

  lemma DmaOutKeeps(v: Vm, a: Proc, junk: Page, mem: map<PageId, Page>)
    requires Inv(v) && Enabled(v, DmaOut(a, junk)) && Refines(v, mem)
    ensures Kept(v, DmaOut(a, junk), mem)
  {
    DmaOutInv(v, a, junk);
    DmaOutView(v, a, junk, mem);
  }

  lemma WriteDoneKeeps(v: Vm, a: Proc, mem: map<PageId, Page>)
    requires Inv(v) && Enabled(v, WriteDone(a)) && Refines(v, mem)
    ensures Kept(v, WriteDone(a), mem)
  {
    WriteDoneInv(v, a);
    WriteDoneView(v, a, mem);
  }

  lemma WriteFailedKeeps(v: Vm, a: Proc, mem: map<PageId, Page>)
    requires Inv(v) && Enabled(v, WriteFailed(a)) && Refines(v, mem)
    ensures Kept(v, WriteFailed(a), mem)
  {
    WriteEnds(v, a);
    WriteEndsView(v, a, mem);
  }

  lemma DmaInKeeps(v: Vm, a: Proc, junk: Page, mem: map<PageId, Page>)
    requires Inv(v) && Enabled(v, DmaIn(a, junk)) && Refines(v, mem)
    ensures Kept(v, DmaIn(a, junk), mem)
  {
    DmaInInv(v, a, junk);
    DmaInView(v, a, junk, mem);
  }

  lemma ReadDoneKeeps(v: Vm, a: Proc, mem: map<PageId, Page>)
    requires Inv(v) && Enabled(v, ReadDone(a)) && Refines(v, mem)
    ensures Kept(v, ReadDone(a), mem)
  {
    ReadDoneInv(v, a);
    ReadDoneView(v, a, mem);
  }

  lemma InstallKeeps(v: Vm, a: Proc, mem: map<PageId, Page>)
    requires Inv(v) && Enabled(v, Install(a)) && Refines(v, mem)
    ensures Kept(v, Install(a), mem)
  {
    InstallInv(v, a);
    InstallView(v, a, mem);
  }

  lemma ReleaseKeeps(v: Vm, a: Proc, mem: map<PageId, Page>)
    requires Inv(v) && Enabled(v, Release(a)) && Refines(v, mem)
    ensures Kept(v, Release(a), mem)
  {
    ReleaseInv(v, a);
    MoveKeeps(v, Release(a), DoRelease(v, a), a, mem);
  }

  lemma ReadFailedKeeps(v: Vm, a: Proc, junk: Page, mem: map<PageId, Page>)
    requires Inv(v) && Enabled(v, ReadFailed(a, junk)) && Refines(v, mem)
    ensures Kept(v, ReadFailed(a, junk), mem)
  {
    FailedReadInv(v, a, junk);
    FailedReadView(v, a, junk, mem);
  }

  lemma ExitKeeps(v: Vm, a: Proc, mem: map<PageId, Page>)
    requires Inv(v) && Enabled(v, Exit(a)) && Refines(v, mem)
    ensures Kept(v, Exit(a), mem)
  {
    ExitInv(v, a);
    MoveKeeps(v, Exit(a), DoExit(v, a), a, mem);
  }

  lemma ExitAcquireKeeps(v: Vm, a: Proc, mem: map<PageId, Page>)
    requires Inv(v) && Enabled(v, ExitAcquire(a)) && Refines(v, mem)
    ensures Kept(v, ExitAcquire(a), mem)
  {
    ExitAcquireInv(v, a);
    MoveKeeps(v, ExitAcquire(a), Acquire(v, a, ExitWant, ExitIn), a, mem);
  }

  lemma FreeFramesKeeps(v: Vm, a: Proc, mem: map<PageId, Page>)
    requires Inv(v) && Enabled(v, FreeFrames(a)) && Refines(v, mem)
    ensures Kept(v, FreeFrames(a), mem)
  {
    FreeFramesInv(v, a);
    FreeFramesView(v, a, mem);
  }

  lemma ExitReleaseKeeps(v: Vm, a: Proc, mem: map<PageId, Page>)
    requires Inv(v) && Enabled(v, ExitRelease(a)) && Refines(v, mem)
    ensures Kept(v, ExitRelease(a), mem)
  {
    ExitReleaseInv(v, a);
    MoveKeeps(v, ExitRelease(a), Free(v.(pc := v.pc[a := Tail])), a, mem);
  }

  lemma GoneKeeps(v: Vm, a: Proc, mem: map<PageId, Page>)
    requires Inv(v) && Enabled(v, Gone(a)) && Refines(v, mem)
    ensures Kept(v, Gone(a), mem)
  {
    GoneInv(v, a);
    MoveKeeps(v, Gone(a), v.(pc := v.pc[a := Dead]), a, mem);
  }

  lemma CreateKeeps(v: Vm, a: Proc, mem: map<PageId, Page>)
    requires Inv(v) && Enabled(v, Create(a)) && Refines(v, mem)
    ensures Kept(v, Create(a), mem)
  {
    if Guard(v, Create(a)) {
      CreateInv(v, a);
      CreateView(v, a, mem);
    } else {
      CreateTooEarly(v, a);
    }
  }

  /** Every step of every process keeps the invariant and changes what the U-procs see by its
      stated effect and nothing else, if and only if its guard holds. */
  lemma StepKeeps(v: Vm, act: Act, mem: map<PageId, Page>)
    requires Inv(v) && Enabled(v, act) && Refines(v, mem)
    ensures Inv(Step(v, act)) && Refines(Step(v, act), Effect(v, act, mem)) <==> Guard(v, act)
  {
    ActKept(v, act, mem);
  }

  lemma ActKept(v: Vm, act: Act, mem: map<PageId, Page>)
    requires Inv(v) && Enabled(v, act) && Refines(v, mem)
    ensures Kept(v, act, mem)
  {
    if act.Store? || act.Refill? || act.Fault? || act.Gone? || act.Create? {
      OutsideKept(v, act, mem);
    } else if act.Exit? || act.ExitAcquire? || act.FreeFrames? || act.ExitRelease? {
      LeavingKept(v, act, mem);
    } else {
      PagingKept(v, act, mem);
    }
  }

  lemma OutsideKept(v: Vm, act: Act, mem: map<PageId, Page>)
    requires Inv(v) && Enabled(v, act) && Refines(v, mem)
    requires act.Store? || act.Refill? || act.Fault? || act.Gone? || act.Create?
    ensures Kept(v, act, mem)
  {
    if act.Store? || act.Refill? || act.Fault? {
      UserKept(v, act, mem);
    } else {
      LifeKept(v, act, mem);
    }
  }

  lemma LeavingKept(v: Vm, act: Act, mem: map<PageId, Page>)
    requires Inv(v) && Enabled(v, act) && Refines(v, mem)
    requires act.Exit? || act.ExitAcquire? || act.FreeFrames? || act.ExitRelease?
    ensures Kept(v, act, mem)
  {
    if act.Exit? || act.ExitAcquire? {
      ExitKept(v, act, mem);
    } else {
      FreeKept(v, act, mem);
    }
  }

  lemma PagingKept(v: Vm, act: Act, mem: map<PageId, Page>)
    requires Inv(v) && Enabled(v, act) && Refines(v, mem)
    requires act.Choose? || act.Evict? || act.DmaOut? || act.WriteDone? || act.WriteFailed? || act.DmaIn? ||
             act.ReadDone? || act.ReadFailed? || act.Install? || act.Release?
    ensures Kept(v, act, mem)
  {
    if act.Choose? || act.Evict? {
      EvictKept(v, act, mem);
    } else if act.DmaOut? || act.WriteDone? || act.WriteFailed? {
      WriteKept(v, act, mem);
    } else if act.DmaIn? || act.ReadDone? || act.ReadFailed? {
      ReadKept(v, act, mem);
    } else {
      InstallKept(v, act, mem);
    }
  }

  lemma UserKept(v: Vm, act: Act, mem: map<PageId, Page>)
    requires Inv(v) && Enabled(v, act) && Refines(v, mem)
    requires act.Store? || act.Refill? || act.Fault?
    ensures Kept(v, act, mem)
  {
    match act
    case Store(a, p, off, x) => StoreKeeps(v, a, p, off, x, mem);
    case Refill(a, p, evicted) => RefillKeeps(v, a, p, evicted, mem);
    case Fault(a, p) => FaultKeeps(v, a, p, mem);
  }

  lemma EvictKept(v: Vm, act: Act, mem: map<PageId, Page>)
    requires Inv(v) && Enabled(v, act) && Refines(v, mem)
    requires act.Choose? || act.Evict?
    ensures Kept(v, act, mem)
  {
    match act
    case Choose(a) => ChooseKeeps(v, a, mem);
    case Evict(a) => EvictKeeps(v, a, mem);
  }

  lemma WriteKept(v: Vm, act: Act, mem: map<PageId, Page>)
    requires Inv(v) && Enabled(v, act) && Refines(v, mem)
    requires act.DmaOut? || act.WriteDone? || act.WriteFailed?
    ensures Kept(v, act, mem)
  {
    match act
    case DmaOut(a, junk) => DmaOutKeeps(v, a, junk, mem);
    case WriteDone(a) => WriteDoneKeeps(v, a, mem);
    case WriteFailed(a) => WriteFailedKeeps(v, a, mem);
  }

  lemma ReadKept(v: Vm, act: Act, mem: map<PageId, Page>)
    requires Inv(v) && Enabled(v, act) && Refines(v, mem)
    requires act.DmaIn? || act.ReadDone? || act.ReadFailed?
    ensures Kept(v, act, mem)
  {
    match act
    case DmaIn(a, junk) => DmaInKeeps(v, a, junk, mem);
    case ReadDone(a) => ReadDoneKeeps(v, a, mem);
    case ReadFailed(a, junk) => ReadFailedKeeps(v, a, junk, mem);
  }

  lemma InstallKept(v: Vm, act: Act, mem: map<PageId, Page>)
    requires Inv(v) && Enabled(v, act) && Refines(v, mem)
    requires act.Install? || act.Release?
    ensures Kept(v, act, mem)
  {
    match act
    case Install(a) => InstallKeeps(v, a, mem);
    case Release(a) => ReleaseKeeps(v, a, mem);
  }

  lemma ExitKept(v: Vm, act: Act, mem: map<PageId, Page>)
    requires Inv(v) && Enabled(v, act) && Refines(v, mem)
    requires act.Exit? || act.ExitAcquire?
    ensures Kept(v, act, mem)
  {
    match act
    case Exit(a) => ExitKeeps(v, a, mem);
    case ExitAcquire(a) => ExitAcquireKeeps(v, a, mem);
  }

  lemma FreeKept(v: Vm, act: Act, mem: map<PageId, Page>)
    requires Inv(v) && Enabled(v, act) && Refines(v, mem)
    requires act.FreeFrames? || act.ExitRelease?
    ensures Kept(v, act, mem)
  {
    match act
    case FreeFrames(a) => FreeFramesKeeps(v, a, mem);
    case ExitRelease(a) => ExitReleaseKeeps(v, a, mem);
  }

  lemma LifeKept(v: Vm, act: Act, mem: map<PageId, Page>)
    requires Inv(v) && Enabled(v, act) && Refines(v, mem)
    requires act.Gone? || act.Create?
    ensures Kept(v, act, mem)
  {
    match act
    case Gone(a) => GoneKeeps(v, a, mem);
    case Create(a) => CreateKeeps(v, a, mem);
  }

  // ---------------------------------------------------------------- runs

  /** Every act of the run is possible and meets its guard when it happens. */
  predicate Possible(v: Vm, acts: seq<Act>)
    decreases |acts|
  {
    acts == [] || (Enabled(v, acts[0]) && Guard(v, acts[0]) && Possible(Step(v, acts[0]), acts[1..]))
  }

  function Run(v: Vm, acts: seq<Act>): Vm
    requires Possible(v, acts)
    decreases |acts|
  {
    if acts == [] then v else Run(Step(v, acts[0]), acts[1..])
  }

  /** The same run on a memory without paging. */
  function Plain(v: Vm, acts: seq<Act>, mem: map<PageId, Page>): map<PageId, Page>
    requires Possible(v, acts)
    decreases |acts|
  {
    if acts == [] then mem else Plain(Step(v, acts[0]), acts[1..], Effect(v, acts[0], mem))
  }

  /** Paging is transparent: any interleaving of pagers, loads, stores, refills, exits and
      creations shows the U-procs the memory that the stores, and the reversion to flash of the pages
      of each process that gives up its frames, would have produced. */
  lemma {:induction false} PagingIsTransparent(v: Vm, acts: seq<Act>, mem: map<PageId, Page>)
    requires Inv(v) && Refines(v, mem) && Possible(v, acts)
    ensures Inv(Run(v, acts)) && Refines(Run(v, acts), Plain(v, acts, mem))
    decreases |acts|
  {
    if acts != [] {
      StepKeeps(v, acts[0], mem);
      PagingIsTransparent(Step(v, acts[0]), acts[1..], Effect(v, acts[0], mem));
    }
  }

  /** A load that hits a valid TLB entry reads the page it names, not a frame reassigned since. */
  lemma LoadReadsMemory(v: Vm, p: PageId, mem: map<PageId, Page>)
    requires Inv(v) && Refines(v, mem) && p in v.tlb && v.tlb[p].valid
    ensures 0 <= v.tlb[p].frame < |v.frames| && p in mem && v.frames[v.tlb[p].frame] == mem[p]
    ensures !Busy(v, v.tlb[p].frame)
  {
    BusyFrame(v, p);
  }

  /** The state initSwapPool leaves: no frame taken, no process started, the mutex free. */
  function Boot(n: nat, flash: map<PageId, Page>): Vm {
    Vm(seq(n, _ => FREE_FRAME), seq(n, _ => map[]), map p | p in flash :: Pte(NO_FRAME, false), map[], flash, 0, 1, [], None,
       {}, map[])
  }

  lemma BootInv(n: nat, flash: map<PageId, Page>)
    requires n > 0 && forall p :: p in flash ==> p.asid > 0 && 0 <= p.idx < MAXPAGES
    ensures Inv(Boot(n, flash)) && Refines(Boot(n, flash), flash)
  {
    var v := Boot(n, flash);
    assert Mutex(v);
    assert Tables(v);
    assert forall q :: !Flying(v, q);
  }

  /** Whenever the mutex is free, frames and valid entries correspond one to one; at every moment
      each valid entry has a frame of its own. */
  lemma Bijection(v: Vm)
    requires Inv(v)
    ensures forall p :: p in v.pt && v.pt[p].valid ==> 0 <= v.pt[p].frame < |v.swap| && Names(v.swap[v.pt[p].frame], p)
    ensures forall p, q :: p in v.pt && q in v.pt && v.pt[p].valid && v.pt[q].valid && v.pt[p].frame == v.pt[q].frame ==> p == q
    ensures v.owner.None? ==> forall f: nat :: f < |v.swap| ==>
              v.swap[f] == FREE_FRAME || (v.swap[f].pte.Some? && var p := v.swap[f].pte.value;
                                         p in v.pt && Names(v.swap[f], p) && v.pt[p] == Pte(f, true))
  {
    forall p | p in v.pt && v.pt[p].valid
      ensures 0 <= v.pt[p].frame < |v.swap| && Names(v.swap[v.pt[p].frame], p)
    {
      assert PteOk(v, p);
    }
    forall f: nat | f < |v.swap| && v.owner.None?
      ensures v.swap[f] == FREE_FRAME || (v.swap[f].pte.Some? && var p := v.swap[f].pte.value;
                                         p in v.pt && Names(v.swap[f], p) && v.pt[p] == Pte(f, true))
    {
      assert FrameOk(v, f);
    }
  }

  /** No frame number, table entry or block that a step follows is ever wild: the ranges that
      Enabled asks for hold wherever a process has got to, and an occupied frame that is chosen
      always has an entry to invalidate and a block to be written to, its own. */
  lemma NoWildAccess(v: Vm, a: Proc)
    requires Inv(v) && a in v.pc
    ensures v.pc[a].Chosen? || InTransit(v.pc[a]) ==> v.pc[a].frame < |v.swap| && v.pc[a].frame < |v.frames|
    ensures v.pc[a].Reading? ==> v.pc[a].page in v.flash
    ensures v.pc[a].Writing? ==> v.pc[a].victim in v.flash
    ensures forall p :: p in v.tlb && v.tlb[p].valid ==> 0 <= v.tlb[p].frame < |v.frames|
    ensures v.pc[a].Chosen? && v.swap[v.pc[a].frame].asid != -1 ==>
              var s := v.swap[v.pc[a].frame];
              s.pte.Some? && s.pte.value in v.pt && s.pte.value == PageId(s.asid, GetFlashBlock(s.pageNo))
  {
    assert PcOk(v, a);
    forall p | p in v.tlb && v.tlb[p].valid
      ensures 0 <= v.tlb[p].frame < |v.frames|
    {
      BusyFrame(v, p);
    }
    if v.pc[a].Chosen? && v.swap[v.pc[a].frame].asid != -1 {
      Victim(v, v.pc[a].frame);
    }
  }

  /** A page is evicted only when every frame is occupied, and then the one whose turn it is;
      otherwise the first free frame is taken and the turn stays. */
  lemma EvictsOnlyWhenFull(v: Vm, a: Proc)
    requires Inv(v) && Enabled(v, Choose(a))
    ensures var v' := DoChoose(v, a); var f := v'.pc[a].frame;
            && f < |v.swap|
            && (v.swap[f].asid == -1 <==> exists g :: 0 <= g < |v.swap| && v.swap[g].asid == -1)
            && (v.swap[f].asid == -1 ==> v'.fifo == v.fifo && forall g :: 0 <= g < f ==> v.swap[g].asid != -1)
            && (v.swap[f].asid != -1 ==> f == v.fifo && v'.fifo == (if f + 1 == |v.swap| then 0 else f + 1))
  {
    var free := FirstFree(v.swap);
    if free.None? {
      Wrap(v.fifo, |v.swap|);
    }
  }

  lemma Wrap(x: nat, n: nat)
    requires x < n
    ensures (x + 1) % n == if x + 1 == n then 0 else x + 1
  {
  }

  // ---------------------------------------------------------------- departures

  /** A failed read keeps the invariant exactly when the frame had been free: otherwise its swap
      entry goes on naming a page that is not resident. */
  lemma FailedReadInv(v: Vm, a: Proc, junk: Page)
    requires Inv(v) && a in v.pc && v.pc[a].Reading? && v.pc[a].frame < |v.frames|
    ensures Inv(DoReadFailed(v, a, junk)) <==> v.swap[v.pc[a].frame] == FREE_FRAME
  {
    if v.swap[v.pc[a].frame] == FREE_FRAME {
      FailedReadClean(v, a, junk);
    } else {
      FailedReadStale(v, a, junk);
    }
  }

  lemma FailedReadView(v: Vm, a: Proc, junk: Page, mem: map<PageId, Page>)
    requires Inv(v) && a in v.pc && v.pc[a].Reading? && v.pc[a].frame < |v.frames| && Refines(v, mem)
    ensures Refines(DoReadFailed(v, a, junk), mem)
  {
    var v' := DoReadFailed(v, a, junk);
    DmaInView(v, a, junk, mem);
    FailedReadDoor(v, a, junk);
    QuietView(v.(frames := v.frames[v.pc[a].frame := junk]), v', mem);
  }

  lemma FailedReadStale(v: Vm, a: Proc, junk: Page)
    requires Inv(v) && a in v.pc && v.pc[a].Reading? && v.pc[a].frame < |v.frames|
    requires v.swap[v.pc[a].frame] != FREE_FRAME
    ensures !Tables(DoReadFailed(v, a, junk))
  {
    var f := v.pc[a].frame;
    FailedReadDoor(v, a, junk);
    assert FrameOk(v, f);
    assert !FrameOk(DoReadFailed(v, a, junk), f);
  }

  lemma FailedReadClean(v: Vm, a: Proc, junk: Page)
    requires Inv(v) && a in v.pc && v.pc[a].Reading? && v.pc[a].frame < |v.frames|
    requires v.swap[v.pc[a].frame] == FREE_FRAME
    ensures Inv(DoReadFailed(v, a, junk))
  {
    var v' := DoReadFailed(v, a, junk);
    FailedReadDoor(v, a, junk);
    FailedReadTables(v, v');
    FailedReadPcs(v, v', a);
    FailedReadUsers(v, v', a);
  }

  lemma FailedReadDoor(v: Vm, a: Proc, junk: Page)
    requires Mutex(v) && a in v.pc && v.pc[a].Reading? && v.pc[a].frame < |v.frames|
    ensures var v' := DoReadFailed(v, a, junk);
            && Mutex(v') && !InTransit(Stage(v')) && OthersStay(v, v', a) && v'.pc[a] == Doomed
            && Stage(v) == v.pc[a] && v.owner == Some(a)
  {
    var v1 := v.(frames := v.frames[v.pc[a].frame := junk], holding := v.holding - {a.asid}, pc := v.pc[a := Doomed]);
    assert v1.holding == {};
    LeaveMutex(v, v1, a);
    FreeAdmits(v1, a);
  }

  lemma FailedReadTables(v: Vm, v': Vm)
    requires Tables(v) && v'.swap == v.swap && v'.pt == v.pt
    requires !InTransit(Stage(v')) && forall g: int :: Busy(v, g) && 0 <= g < |v.swap| ==> v.swap[g] == FREE_FRAME
    ensures Tables(v')
  {
    forall g: nat | g < |v'.swap|
      ensures FrameOk(v', g)
    {
      assert FrameOk(v, g);
    }
    forall q | q in v'.pt
      ensures PteOk(v', q)
    {
      assert PteOk(v, q);
    }
  }

  lemma FailedReadPcs(v: Vm, v': Vm, a: Proc)
    requires Mutex(v) && PcsOk(v) && v.owner == Some(a) && v'.swap == v.swap && v'.pt == v.pt
    requires a in v.pc && OthersStay(v, v', a) && v'.pc[a] == Doomed
    ensures PcsOk(v')
  {
    forall b | b in v'.pc
      ensures PcOk(v', b)
    {
      assert PcOk(v, b) && (b != a ==> !Critical(v.pc[b]));
    }
  }

  lemma FailedReadUsers(v: Vm, v': Vm, a: Proc)
    requires GoneOk(v) && OneUser(v) && a in v.pc && !Departed(v.pc[a])
    requires OthersStay(v, v', a) && v'.pc[a] == Doomed && v'.pt == v.pt && v'.tlb == v.tlb
    ensures GoneOk(v') && OneUser(v')
  {
    assert SameUsers(v, v');
    UsersFrame(v, v');
  }

  // ---------------------------------------------------------------- an ASID started again

  /** What starting a process does at once: reinitialising the page table of its ASID keeps TLB and
      swap pool in agreement with it exactly when no page of that ASID is resident and the TLB has
      none of its entries, up to blank ones. What a predecessor does later is LeaverView. */
  lemma EarlyCreate(v: Vm, a: int)
    requires Inv(v)
    ensures var v' := v.(pt := Blank(v.pt, a));
            Tables(v') && Coherent(v') <==>
              && (forall p :: p in v.pt && p.asid == a ==> !v.pt[p].valid)
              && (forall p :: p in v.tlb && p.asid == a ==> v.tlb[p] == Pte(NO_FRAME, false))
  {
    var v' := v.(pt := Blank(v.pt, a));
    if p :| p in v.pt && p.asid == a && v.pt[p].valid {
      BlankClash(v, a, p);
    } else {
      BlankTables(v, v', a);
    }
  }

  lemma BlankClash(v: Vm, a: int, p: PageId)
    requires Domains(v) && Tables(v) && p in v.pt && p.asid == a && v.pt[p].valid
    ensures !Tables(v.(pt := Blank(v.pt, a)))
  {
    BusyFrame(v, p);
    assert PteOk(v, p);
    assert !FrameOk(v.(pt := Blank(v.pt, a)), v.pt[p].frame);
  }

  /** What a predecessor does later: the loop of freeSwapFrames is invisible to whoever runs with its
      ASID by then exactly when every page of that ASID in a frame is what its block holds. */
  lemma LeaverView(v: Vm, a: Proc, mem: map<PageId, Page>)
    requires Domains(v) && Mutex(v) && Tables(v) && Refines(v, mem) && Enabled(v, FreeFrames(a))
    ensures Refines(DoFreeFrames(v, a), mem) <==>
              forall p :: p in v.pt && p.asid == a.asid && v.pt[p].valid ==>
                0 <= v.pt[p].frame < |v.frames| && p in v.flash && v.frames[v.pt[p].frame] == v.flash[p]
  {
    var v' := DoFreeFrames(v, a);
    FreeFramesTables(v, a);
    VacatedView(v, v', a.asid, mem);
  }

  lemma VacatedView(v: Vm, v': Vm, asid: int, mem: map<PageId, Page>)
    requires Refines(v, mem) && !Stage(v).Writing? && !Stage(v').Writing?
    requires v'.pt.Keys == v.pt.Keys && v'.frames == v.frames && v'.flash == v.flash && v.pt.Keys == v.flash.Keys
    requires forall p :: p in v.pt && p.asid == asid ==> !v'.pt[p].valid
    requires forall p :: p in v.pt && p.asid != asid ==> v'.pt[p] == v.pt[p]
    ensures Refines(v', mem) <==>
              forall p :: p in v.pt && p.asid == asid && v.pt[p].valid ==>
                0 <= v.pt[p].frame < |v.frames| && p in v.flash && v.frames[v.pt[p].frame] == v.flash[p]
  {
    assert forall q :: !Flying(v', q) && !Flying(v, q);
  }

  // ---------------------------------------------------------------- mutual exclusion

  /** At most one process is between P and V on swapSemaphore, those waiting wait for it, and
      sys2 never finds the flag of holdingSwapMutex set. */
  lemma SwapMutex(v: Vm)
    requires Inv(v)
    ensures forall a, b :: a in v.pc && b in v.pc && Critical(v.pc[a]) && Critical(v.pc[b]) ==> a == b
    ensures 0 <= v.sem <= 1 && (v.sem == 1 <==> forall a :: a in v.pc ==> !Critical(v.pc[a]))
    ensures v.sem == 1 ==> v.queue == []
    ensures forall a :: Enabled(v, Exit(a)) ==> a.asid !in v.holding
  {
    if v.sem == 0 {
      assert v.owner.Some?;
      var o := v.owner.value;
      assert o in v.pc && v.owner == Some(o);
      assert Critical(v.pc[o]);
    }
    forall a | Enabled(v, Exit(a))
      ensures a.asid !in v.holding
    {
      NotHolding(v, a);
    }
  }
}
