/** Runs of the paging machine from boot, with one frame and one page for each of two ASIDs, into
    the states where a failing device or a reused ASID does harm. */
module PagerDepartures {
  import opened Queues
  import opened Pager
  import opened PagerProof
  import opened PagerRuns

  const P1 := PageId(1, 0)
  const P2 := PageId(2, 0)
  const OLD: Page := map[0 := 1]
  const NEW: Page := map[0 := 7]
  const OTHER: Page := map[0 := 2]
  const FRESH := Pte(NO_FRAME, false)
  const RESIDENT := Pte(0, true)
  const EVICTED := Pte(0, false)
  const NAMES_P1 := Swap(1, 0x80000, Some(P1))

  /** Two processes of the first ASID, one after the other, and one of the second. */
  const X := Proc(1, 0)
  const Y := Proc(1, 1)
  const Z := Proc(2, 0)

  /** The machine with frame 0 holding `frame` under swap entry `s`. */
  function World(s: Swap, frame: Page, e1: Pte, tlb: map<PageId, Pte>, block1: Page,
                 owner: Option<Proc>, holding: set<int>, pc: map<Proc, Pc>): Vm {
    Vm([s], [frame], map[P1 := e1, P2 := FRESH], tlb, map[P1 := block1, P2 := OTHER], 0,
       if owner.None? then 1 else 0, [], owner, holding, pc)
  }

  ghost predicate Reaches(v: Vm, acts: seq<Act>, v': Vm) { Possible(v, acts) && Run(v, acts) == v' }

  /** The act is possible, meets its guard and leads from `v` to `v'`. */
  ghost predicate Takes(v: Vm, act: Act, v': Vm) { Enabled(v, act) && Guard(v, act) && Step(v, act) == v' }

  lemma Then(v: Vm, act: Act, v1: Vm, acts: seq<Act>, v': Vm)
    requires Takes(v, act, v1) && Reaches(v1, acts, v')
    ensures Reaches(v, [act] + acts, v')
  {
    assert ([act] + acts)[1..] == acts;
  }

  lemma One(v: Vm, act: Act, v': Vm)
    requires Takes(v, act, v')
    ensures Reaches(v, [act], v')
  {
    Then(v, act, v', [], v');
    assert [act] + [] == [act];
  }

  lemma {:induction false} Append(v: Vm, a: seq<Act>, v1: Vm, b: seq<Act>, v': Vm)
    requires Reaches(v, a, v1) && Reaches(v1, b, v')
    ensures Reaches(v, a + b, v')
    decreases |a|
  {
    if a == [] {
      assert a + b == b;
    } else {
      var w, rest := FirstAct(v, a, v1);
      Append(w, rest, v1, b, v');
      Then(v, a[0], w, rest + b, v');
      Regroup(a[0], rest, b);
    }
  }

  lemma FirstAct(v: Vm, a: seq<Act>, v1: Vm) returns (w: Vm, rest: seq<Act>)
    requires a != [] && Reaches(v, a, v1)
    ensures Takes(v, a[0], w) && Reaches(w, rest, v1) && a == [a[0]] + rest && |rest| == |a| - 1
  {
    w, rest := Step(v, a[0]), a[1..];
  }

  lemma Regroup(x: Act, a: seq<Act>, b: seq<Act>)
    ensures ([x] + a) + b == [x] + (a + b)
  {
  }

  const START := World(FREE_FRAME, map[], FRESH, map[], OLD, None, {}, map[])

  lemma Booted()
    ensures Boot(1, map[P1 := OLD, P2 := OTHER]) == START
    ensures Inv(START)
  {
    var v := Boot(1, map[P1 := OLD, P2 := OTHER]);
    BootInv(1, map[P1 := OLD, P2 := OTHER]);
    assert v.swap == [FREE_FRAME] && v.frames == [map[]];
    assert v.pt == map[P1 := FRESH, P2 := FRESH];
  }

  // ---------------------------------------------------------------- a page comes in

  /** Process `a` brings its page in while process `b` stays where it is. */
  function Cold(a: Proc, b: Proc, pc: Pc): Vm {
    World(FREE_FRAME, map[], FRESH, map[], OLD, None, {}, map[a := User, b := pc])
  }

  function Refilled(a: Proc, b: Proc, pc: Pc): Vm {
    World(FREE_FRAME, map[], FRESH, map[P1 := FRESH], OLD, None, {}, map[a := User, b := pc])
  }

  /** `a` is at `at` of pager, inside the mutex, with `frame` in the frame. */
  function Inside(a: Proc, b: Proc, pc: Pc, at: Pc, holding: set<int>, frame: Page): Vm {
    World(FREE_FRAME, frame, FRESH, map[P1 := FRESH], OLD, Some(a), holding, map[a := at, b := pc])
  }

  function Installed(a: Proc, b: Proc, pc: Pc): Vm {
    World(NAMES_P1, OLD, RESIDENT, map[P1 := RESIDENT], OLD, Some(a), {1}, map[a := Leave, b := pc])
  }

  function Warm(a: Proc, b: Proc, pc: Pc): Vm {
    World(NAMES_P1, OLD, RESIDENT, map[P1 := RESIDENT], OLD, None, {}, map[a := User, b := pc])
  }

  lemma RefillTakes(a: Proc, b: Proc, pc: Pc)
    requires a.asid == 1 && a != b
    ensures Takes(Cold(a, b, pc), Refill(a, P1, {}), Refilled(a, b, pc))
  {
    assert Step(Cold(a, b, pc), Refill(a, P1, {})).tlb == map[P1 := FRESH];
  }

  lemma FaultTakes(a: Proc, b: Proc, pc: Pc)
    requires a.asid == 1 && a != b
    ensures Takes(Refilled(a, b, pc), Fault(a, P1), Inside(a, b, pc, Enter(P1), {}, map[]))
  {
    assert map[a := User, b := pc][a := Enter(P1)] == map[a := Enter(P1), b := pc];
  }

  lemma ChooseTakes(a: Proc, b: Proc, pc: Pc)
    requires a.asid == 1 && a != b
    ensures Takes(Inside(a, b, pc, Enter(P1), {}, map[]), Choose(a), Inside(a, b, pc, Chosen(P1, 0), {1}, map[]))
  {
    assert FirstFree([FREE_FRAME]) == Some(0);
    assert map[a := Enter(P1), b := pc][a := Chosen(P1, 0)] == map[a := Chosen(P1, 0), b := pc];
  }

  lemma EvictTakes(a: Proc, b: Proc, pc: Pc)
    requires a.asid == 1 && a != b
    ensures Takes(Inside(a, b, pc, Chosen(P1, 0), {1}, map[]), Evict(a), Inside(a, b, pc, Reading(P1, 0), {1}, map[]))
  {
    assert map[a := Chosen(P1, 0), b := pc][a := Reading(P1, 0)] == map[a := Reading(P1, 0), b := pc];
  }

  lemma ReadTakes(a: Proc, b: Proc, pc: Pc)
    requires a.asid == 1 && a != b
    ensures Takes(Inside(a, b, pc, Reading(P1, 0), {1}, map[]), ReadDone(a), Inside(a, b, pc, Filled(P1, 0), {1}, OLD))
  {
    assert map[a := Reading(P1, 0), b := pc][a := Filled(P1, 0)] == map[a := Filled(P1, 0), b := pc];
  }

  lemma InstallTakes(a: Proc, b: Proc, pc: Pc)
    requires a.asid == 1 && a != b
    ensures Takes(Inside(a, b, pc, Filled(P1, 0), {1}, OLD), Install(a), Installed(a, b, pc))
  {
    InstallMaps();
    assert map[a := Filled(P1, 0), b := pc][a := Leave] == map[a := Leave, b := pc];
  }

  lemma InstallMaps()
    ensures SetTlb(map[P1 := FRESH], P1, RESIDENT) == map[P1 := RESIDENT]
    ensures map[P1 := FRESH, P2 := FRESH][P1 := RESIDENT] == map[P1 := RESIDENT, P2 := FRESH]
    ensures GetFlashBlock(Vpn(0)) == 0 && Vpn(0) == 0x80000
  {
  }

  lemma ReleaseTakes(a: Proc, b: Proc, pc: Pc)
    requires a.asid == 1 && a != b
    ensures Takes(Installed(a, b, pc), Release(a), Warm(a, b, pc))
  {
    assert {1} - {a.asid} == {};
    assert map[a := Leave, b := pc][a := User] == map[a := User, b := pc];
  }

  function Filling(a: Proc): seq<Act> {
    [Refill(a, P1, {})] + ([Fault(a, P1)] + ([Choose(a)] + Fetching(a)))
  }

  function Fetching(a: Proc): seq<Act> {
    [Evict(a)] + ([ReadDone(a)] + ([Install(a)] + [Release(a)]))
  }

  lemma ReadingReaches(a: Proc, b: Proc, pc: Pc)
    requires a.asid == 1 && a != b
    ensures Reaches(Inside(a, b, pc, Chosen(P1, 0), {1}, map[]), Fetching(a), Warm(a, b, pc))
  {
    var w := Warm(a, b, pc);
    ReleaseTakes(a, b, pc);
    One(Installed(a, b, pc), Release(a), w);
    InstallTakes(a, b, pc);
    Then(Inside(a, b, pc, Filled(P1, 0), {1}, OLD), Install(a), Installed(a, b, pc), [Release(a)], w);
    ReadTakes(a, b, pc);
    Then(Inside(a, b, pc, Reading(P1, 0), {1}, map[]), ReadDone(a), Inside(a, b, pc, Filled(P1, 0), {1}, OLD),
         [Install(a)] + [Release(a)], w);
    EvictTakes(a, b, pc);
    Then(Inside(a, b, pc, Chosen(P1, 0), {1}, map[]), Evict(a), Inside(a, b, pc, Reading(P1, 0), {1}, map[]),
         [ReadDone(a)] + ([Install(a)] + [Release(a)]), w);
  }

  lemma FillingReaches(a: Proc, b: Proc, pc: Pc)
    requires a.asid == 1 && a != b
    ensures Reaches(Cold(a, b, pc), Filling(a), Warm(a, b, pc))
  {
    var w := Warm(a, b, pc);
    ReadingReaches(a, b, pc);
    ChooseTakes(a, b, pc);
    Then(Inside(a, b, pc, Enter(P1), {}, map[]), Choose(a), Inside(a, b, pc, Chosen(P1, 0), {1}, map[]), Fetching(a), w);
    FaultTakes(a, b, pc);
    Then(Refilled(a, b, pc), Fault(a, P1), Inside(a, b, pc, Enter(P1), {}, map[]), [Choose(a)] + Fetching(a), w);
    RefillTakes(a, b, pc);
    Then(Cold(a, b, pc), Refill(a, P1, {}), Refilled(a, b, pc), [Fault(a, P1)] + ([Choose(a)] + Fetching(a)), w);
  }

  const ALONE := World(FREE_FRAME, map[], FRESH, map[], OLD, None, {}, map[X := User])
  const WARM := Warm(X, Z, User)

  lemma FirstStarts()
    ensures Takes(START, Create(X), ALONE)
  {
    assert Blank(START.pt, 1) == START.pt;
  }

  lemma SecondStarts()
    ensures Takes(ALONE, Create(Z), Cold(X, Z, User))
  {
    assert Blank(ALONE.pt, 2) == ALONE.pt;
    assert map[X := User][Z := User] == map[X := User, Z := User];
  }

  function Warming(): seq<Act> { [Create(X)] + ([Create(Z)] + Filling(X)) }

  lemma WarmReached()
    ensures Reaches(START, Warming(), WARM)
  {
    FirstStarts();
    SecondStarts();
    FillingReaches(X, Z, User);
    Then(ALONE, Create(Z), Cold(X, Z, User), Filling(X), WARM);
    Then(START, Create(X), ALONE, [Create(Z)] + Filling(X), WARM);
  }

  // ---------------------------------------------------------------- another pushes it out

  const BOTH := map[P1 := RESIDENT, P2 := FRESH]
  const B1 := World(NAMES_P1, NEW, RESIDENT, map[P1 := RESIDENT], OLD, None, {}, map[X := User, Z := User])
  const B2 := World(NAMES_P1, NEW, RESIDENT, BOTH, OLD, None, {}, map[X := User, Z := User])
  const B3 := World(NAMES_P1, NEW, RESIDENT, BOTH, OLD, Some(Z), {}, map[X := User, Z := Enter(P2)])
  const B4 := World(NAMES_P1, NEW, RESIDENT, BOTH, OLD, Some(Z), {2}, map[X := User, Z := Chosen(P2, 0)])
  const EVICTING := World(NAMES_P1, NEW, EVICTED, map[P1 := EVICTED, P2 := FRESH], OLD,
                          Some(Z), {2}, map[X := User, Z := Writing(P2, 0, P1)])
  const REFILLING := World(NAMES_P1, NEW, EVICTED, map[P1 := EVICTED, P2 := FRESH], NEW,
                           Some(Z), {2}, map[X := User, Z := Reading(P2, 0)])

  lemma StoreStep()
    ensures Takes(WARM, Store(X, P1, 0, 7), B1)
  {
    assert OLD[0 := 7] == NEW;
  }

  lemma RefillStep()
    ensures Takes(B1, Refill(Z, P2, {}), B2)
  {
    assert Step(B1, Refill(Z, P2, {})).tlb == BOTH;
  }

  lemma FaultStep()
    ensures Takes(B2, Fault(Z, P2), B3)
  {
    assert B2.pc[Z := Enter(P2)] == B3.pc;
  }

  lemma TurnStep()
    ensures Takes(B3, Choose(Z), B4)
  {
    assert FirstFree(B3.swap).None?;
    assert B3.pc[Z := Chosen(P2, 0)] == B4.pc;
  }

  lemma PushOutStep()
    ensures Takes(B4, Evict(Z), EVICTING)
  {
    assert Step(B4, Evict(Z)).tlb == EVICTING.tlb && Step(B4, Evict(Z)).pt == EVICTING.pt;
    assert B4.pc[Z := Writing(P2, 0, P1)] == EVICTING.pc;
  }

  function Pushing(): seq<Act> {
    [Store(X, P1, 0, 7)] + ([Refill(Z, P2, {})] + ([Fault(Z, P2)] + ([Choose(Z)] + [Evict(Z)])))
  }

  lemma PushingReaches()
    ensures Reaches(WARM, Pushing(), EVICTING)
  {
    PushOutStep();
    One(B4, Evict(Z), EVICTING);
    TurnStep();
    Then(B3, Choose(Z), B4, [Evict(Z)], EVICTING);
    FaultStep();
    Then(B2, Fault(Z, P2), B3, [Choose(Z)] + [Evict(Z)], EVICTING);
    RefillStep();
    Then(B1, Refill(Z, P2, {}), B2, [Fault(Z, P2)] + ([Choose(Z)] + [Evict(Z)]), EVICTING);
    StoreStep();
    Then(WARM, Store(X, P1, 0, 7), B1, [Refill(Z, P2, {})] + ([Fault(Z, P2)] + ([Choose(Z)] + [Evict(Z)])), EVICTING);
  }

  lemma EvictingReached()
    ensures Reaches(START, Warming() + Pushing(), EVICTING)
  {
    WarmReached();
    PushingReaches();
    Append(START, Warming(), WARM, Pushing(), EVICTING);
  }

  lemma WriteStep()
    ensures Takes(EVICTING, WriteDone(Z), REFILLING)
  {
    assert Step(EVICTING, WriteDone(Z)).flash == REFILLING.flash;
    assert EVICTING.pc[Z := Reading(P2, 0)] == REFILLING.pc;
  }

  lemma RefillingReached()
    ensures Reaches(START, Warming() + Pushing() + [WriteDone(Z)], REFILLING)
  {
    EvictingReached();
    WriteStep();
    One(EVICTING, WriteDone(Z), REFILLING);
    Append(START, Warming() + Pushing(), EVICTING, [WriteDone(Z)], REFILLING);
  }

  const LEAVING := Warm(Z, X, Signalled).(pc := map[X := Signalled, Z := User])

  lemma ExitStep()
    ensures Takes(WARM, Exit(X), LEAVING)
  {
    assert WARM.pc[X := Signalled] == LEAVING.pc;
  }

  lemma LeavingReached()
    ensures Reaches(START, Warming() + [Exit(X)], LEAVING)
  {
    WarmReached();
    ExitStep();
    One(WARM, Exit(X), LEAVING);
    Append(START, Warming(), WARM, [Exit(X)], LEAVING);
  }

  /** Whatever is reached from boot satisfies the invariant. */
  lemma ReachedInv(acts: seq<Act>, v: Vm)
    requires Reaches(START, acts, v)
    ensures Inv(v) && exists mem :: Refines(v, mem)
  {
    Booted();
    BootInv(1, map[P1 := OLD, P2 := OTHER]);
    var mem := map[P1 := OLD, P2 := OTHER];
    PagingIsTransparent(START, acts, mem);
    assert Refines(v, Plain(START, acts, mem));
  }

  // ---------------------------------------------------------------- failing devices

  lemma WriteFails()
    ensures Enabled(EVICTING, WriteFailed(Z)) && !Guard(EVICTING, WriteFailed(Z))
    ensures Stage(EVICTING) == Writing(P2, 0, P1)
  {
    assert NEW[0] != OLD[0];
  }

  /** A failed write-back loses a store: in a state reached from boot the guard fails, and the
      U-procs no longer see the memory their stores produced. */
  lemma FailedWriteLosesStore(mem: map<PageId, Page>)
    requires Refines(EVICTING, mem)
    ensures Reaches(START, Warming() + Pushing(), EVICTING)
    ensures Enabled(EVICTING, WriteFailed(Z)) && !Guard(EVICTING, WriteFailed(Z))
    ensures mem[P1] == NEW && !Refines(Step(EVICTING, WriteFailed(Z)), mem)
  {
    EvictingReached();
    WriteFails();
    ReachedInv(Warming() + Pushing(), EVICTING);
    StepKeeps(EVICTING, WriteFailed(Z), mem);
    WriteEnds(EVICTING, Z);
  }

  lemma ReadFails(junk: Page)
    ensures Enabled(REFILLING, ReadFailed(Z, junk)) && !Guard(REFILLING, ReadFailed(Z, junk))
    ensures var v' := Step(REFILLING, ReadFailed(Z, junk));
            v'.sem == 1 && v'.swap[0] == NAMES_P1 && !v'.pt[P1].valid
  {
  }

  /** A failed read over an occupied frame: in a state reached from boot the guard fails, and the
      mutex is left free with the swap pool naming a page that is not resident. */
  lemma FailedReadStrandsEntry(junk: Page)
    ensures Reaches(START, Warming() + Pushing() + [WriteDone(Z)], REFILLING)
    ensures Enabled(REFILLING, ReadFailed(Z, junk)) && !Guard(REFILLING, ReadFailed(Z, junk))
    ensures var v' := Step(REFILLING, ReadFailed(Z, junk));
            v'.sem == 1 && v'.swap[0] == NAMES_P1 && !v'.pt[P1].valid && !Inv(v')
  {
    RefillingReached();
    ReachedInv(Warming() + Pushing() + [WriteDone(Z)], REFILLING);
    ReadFails(junk);
    FailedReadInv(REFILLING, Z, junk);
  }

  // ---------------------------------------------------------------- an ASID started again

  lemma SuccessorMayStart()
    ensures Enabled(LEAVING, Create(Y)) && !Guard(LEAVING, Create(Y))
  {
    assert X in LEAVING.pc && X.asid == Y.asid;
  }

  lemma SuccessorClashes()
    ensures !Tables(DoCreate(LEAVING, Y))
  {
    assert !FrameOk(DoCreate(LEAVING, Y), 0);
  }

  /** A program that has signalled the shell and not yet freed its frames: starting its ASID again
      puts the swap pool at odds with the new page table at once. */
  lemma EarlyCreateStrandsFrame()
    ensures Reaches(START, Warming() + [Exit(X)], LEAVING) && Inv(LEAVING)
    ensures Enabled(LEAVING, Create(Y)) && !Guard(LEAVING, Create(Y))
    ensures !Tables(Step(LEAVING, Create(Y)))
  {
    LeavingReached();
    ReachedInv(Warming() + [Exit(X)], LEAVING);
    SuccessorMayStart();
    SuccessorClashes();
  }

  const PREEMPTED := World(FREE_FRAME, map[], FRESH, map[], OLD, None, {}, map[X := Signalled])
  const STORED := World(NAMES_P1, NEW, RESIDENT, map[P1 := RESIDENT], OLD, None, {}, map[Y := User, X := Signalled])
  const CLEANING := World(NAMES_P1, NEW, RESIDENT, map[P1 := RESIDENT], OLD, Some(X), {}, map[Y := User, X := ExitIn])
  const WRITTEN := map[P1 := NEW, P2 := OTHER]

  lemma PreemptedReached()
    ensures Reaches(START, [Create(X)] + [Exit(X)], PREEMPTED)
  {
    FirstStarts();
    assert ALONE.pc[X := Signalled] == PREEMPTED.pc;
    One(ALONE, Exit(X), PREEMPTED);
    Then(START, Create(X), ALONE, [Exit(X)], PREEMPTED);
  }

  lemma SuccessorStarts()
    ensures Enabled(PREEMPTED, Create(Y)) && !Guard(PREEMPTED, Create(Y))
    ensures Step(PREEMPTED, Create(Y)) == Cold(Y, X, Signalled)
  {
    assert X in PREEMPTED.pc && X.asid == Y.asid;
    assert Blank(PREEMPTED.pt, 1) == PREEMPTED.pt;
    assert PREEMPTED.pc[Y := User] == map[Y := User, X := Signalled];
  }

  lemma SuccessorStores()
    ensures Takes(Warm(Y, X, Signalled), Store(Y, P1, 0, 7), STORED)
  {
    assert OLD[0 := 7] == NEW;
  }

  lemma LeaverGoesOn()
    ensures Takes(STORED, ExitAcquire(X), CLEANING)
  {
    assert STORED.pc[X := ExitIn] == CLEANING.pc;
  }

  function Overlap(): seq<Act> { Filling(Y) + ([Store(Y, P1, 0, 7)] + [ExitAcquire(X)]) }

  lemma CleaningReached()
    ensures Reaches(Cold(Y, X, Signalled), Overlap(), CLEANING)
  {
    LeaverGoesOn();
    One(STORED, ExitAcquire(X), CLEANING);
    SuccessorStores();
    Then(Warm(Y, X, Signalled), Store(Y, P1, 0, 7), STORED, [ExitAcquire(X)], CLEANING);
    FillingReaches(Y, X, Signalled);
    Append(Cold(Y, X, Signalled), Filling(Y), Warm(Y, X, Signalled), [Store(Y, P1, 0, 7)] + [ExitAcquire(X)], CLEANING);
  }

  lemma CleaningView()
    ensures Refines(CLEANING, WRITTEN) && Enabled(CLEANING, FreeFrames(X))
    ensures !Refines(Step(CLEANING, FreeFrames(X)), WRITTEN)
  {
    var v' := DoFreeFrames(CLEANING, X);
    assert CLEANING.swap[0].asid == 1 && CLEANING.swap[0].pte == Some(P1);
    assert Named(CLEANING.swap, 1, P1);
    assert !v'.pt[P1].valid && !Flying(v', P1);
    assert NEW[0] != OLD[0];
    assert v'.flash[P1] == OLD;
    assert forall q :: !Flying(CLEANING, q);
  }

  /** A program preempted between its V and its P, with nothing resident: starting its ASID again
      changes no entry, the successor brings its page in and stores to it, every guard but that of
      the creation met, and then the predecessor's freeSwapFrames takes the page: the store is lost. */
  lemma LeaverLosesStore()
    ensures Reaches(START, [Create(X)] + [Exit(X)], PREEMPTED)
    ensures Enabled(PREEMPTED, Create(Y)) && !Guard(PREEMPTED, Create(Y))
    ensures var v := Step(PREEMPTED, Create(Y));
            v.pt == PREEMPTED.pt && v.tlb == map[] && Reaches(v, Overlap(), CLEANING)
    ensures Refines(CLEANING, WRITTEN) && Enabled(CLEANING, FreeFrames(X))
    ensures !Refines(Step(CLEANING, FreeFrames(X)), WRITTEN)
  {
    PreemptedReached();
    SuccessorStarts();
    CleaningReached();
    CleaningView();
  }
}
