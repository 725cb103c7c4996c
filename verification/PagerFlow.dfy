/** The way of each process through pager and sys2: every fault is served, and nobody is led astray. */
module PagerFlow {
  import opened Queues
  import opened Pager
  import opened PagerProof
  import opened PagerRuns

  // ---------------------------------------------------------------- one step

  /** Where the act takes the process that performs it: pager goes from its P through the two
      transfers to its V and back to user code, and to the trap handler only from a failed read;
      sys2 goes from its first V through freeSwapFrames to the end. */
  predicate Goes(act: Act, x: Pc, y: Pc) {
    match act
    case Fault(_, p) => x == User && (y == Want(p) || y == Enter(p))
    case Choose(_) => x.Enter? && y.Chosen? && y.page == x.page
    case Evict(_) => x.Chosen? && (y.Writing? || y.Reading?) && y.page == x.page && y.frame == x.frame
    case WriteDone(_) => x.Writing? && y == Reading(x.page, x.frame)
    case WriteFailed(_) => x.Writing? && y == Reading(x.page, x.frame)
    case ReadDone(_) => x.Reading? && y == Filled(x.page, x.frame)
    case ReadFailed(_, _) => x.Reading? && y == Doomed
    case Install(_) => x.Filled? && y == Leave
    case Release(_) => x == Leave && y == User
    case Exit(_) => (x == User || x == Doomed) && y == Signalled
    case ExitAcquire(_) => x == Signalled && (y == ExitWant || y == ExitIn)
    case FreeFrames(_) => x == ExitIn && y == ExitOut
    case ExitRelease(_) => x == ExitOut && y == Tail
    case Gone(_) => x == Tail && y == Dead
    case _ => y == x
  }

  /** The acts that perform V on the swap mutex. */
  predicate Signals(act: Act) { act.Release? || act.ReadFailed? || act.ExitRelease? }

  /** Where the act takes everybody else: nowhere, but the oldest waiter past its P if the act is a V. */
  predicate Stays(v: Vm, act: Act, b: Proc, y: Pc)
    requires b in v.pc
  {
    if Signals(act) && v.queue != [] && v.queue[0] == b
    then (v.pc[b].Want? && y == Enter(v.pc[b].page)) || (v.pc[b] == ExitWant && y == ExitIn)
    else y == v.pc[b]
  }

  ghost predicate Flows(v: Vm, act: Act, v': Vm) {
    && (forall b :: b in v'.pc <==> b in v.pc || (act.Create? && b == act.a))
    && (act.a in v.pc ==> Goes(act, v.pc[act.a], v'.pc[act.a]))
    && (act.Create? ==> v'.pc[act.a] == User)
    && (forall b :: b in v.pc && b != act.a ==> Stays(v, act, b, v'.pc[b]))
  }

  lemma MoveFlows(v: Vm, act: Act, v': Vm)
    requires act.a in v.pc && act.a in v'.pc && !act.Create? && !Signals(act)
    requires v'.pc == v.pc[act.a := v'.pc[act.a]] && Goes(act, v.pc[act.a], v'.pc[act.a])
    ensures Flows(v, act, v')
  {
  }

  lemma SignalFlows(v: Vm, act: Act, v1: Vm)
    requires Mutex(v) && act.a in v.pc && Signals(act) && Critical(v.pc[act.a])
    requires v1.queue == v.queue && act.a in v1.pc && v1.pc == v.pc[act.a := v1.pc[act.a]]
    requires Goes(act, v.pc[act.a], v1.pc[act.a])
    ensures Flows(v, act, Free(v1))
  {
    HeadWaits(v, act.a);
    FreePcs(v1);
    AdmitFlows(v, act, v1, Free(v1));
  }

  lemma AdmitFlows(v: Vm, act: Act, v1: Vm, v': Vm)
    requires act.a in v.pc && Signals(act) && act.a in v1.pc && v1.pc == v.pc[act.a := v1.pc[act.a]]
    requires Goes(act, v.pc[act.a], v1.pc[act.a])
    requires v.queue != [] ==> v.queue[0] in v.pc && AtDoor(v.pc[v.queue[0]]) && v.queue[0] != act.a
    requires v'.pc == if v.queue == [] then v1.pc else v1.pc[v.queue[0] := Admit(v.pc[v.queue[0]])]
    ensures Flows(v, act, v')
  {
  }

  /** The oldest waiter is at its P, and is not the holder. */
  lemma HeadWaits(v: Vm, a: Proc)
    requires Mutex(v) && a in v.pc && Critical(v.pc[a])
    ensures v.queue != [] ==> v.queue[0] in v.pc && AtDoor(v.pc[v.queue[0]]) && v.queue[0] != a
  {
  }

  lemma FreePcs(v: Vm)
    requires v.queue != [] ==> v.queue[0] in v.pc
    ensures Free(v).pc == if v.queue == [] then v.pc else v.pc[v.queue[0] := Admit(v.pc[v.queue[0]])]
  {
  }

  lemma UserFlows(v: Vm, act: Act)
    requires Enabled(v, act) && (act.Store? || act.Refill? || act.Fault?)
    ensures Flows(v, act, UserStep(v, act))
  {
    MoveFlows(v, act, UserStep(v, act));
  }

  lemma EvictFlows(v: Vm, act: Act)
    requires Enabled(v, act) && (act.Choose? || act.Evict? || act.DmaOut? || act.WriteDone? || act.WriteFailed?)
    ensures Flows(v, act, EvictStep(v, act))
  {
    MoveFlows(v, act, EvictStep(v, act));
  }

  lemma FillFlows(v: Vm, act: Act)
    requires Mutex(v) && Enabled(v, act)
    requires act.DmaIn? || act.ReadDone? || act.Install? || act.Release? || act.ReadFailed?
    ensures Flows(v, act, FillStep(v, act))
  {
    if act.Release? {
      ReleaseFlows(v, act.a);
    } else if act.ReadFailed? {
      ReadFailedFlows(v, act.a, act.junk);
    } else {
      MoveFlows(v, act, FillStep(v, act));
    }
  }

  lemma ReleaseFlows(v: Vm, a: Proc)
    requires Mutex(v) && Enabled(v, Release(a))
    ensures Flows(v, Release(a), DoRelease(v, a))
  {
    SignalFlows(v, Release(a), v.(holding := v.holding - {a.asid}, pc := v.pc[a := User]));
  }

  lemma ReadFailedFlows(v: Vm, a: Proc, junk: Page)
    requires Mutex(v) && Enabled(v, ReadFailed(a, junk))
    ensures Flows(v, ReadFailed(a, junk), DoReadFailed(v, a, junk))
  {
    SignalFlows(v, ReadFailed(a, junk),
                v.(frames := v.frames[v.pc[a].frame := junk], holding := v.holding - {a.asid}, pc := v.pc[a := Doomed]));
  }

  lemma LifeFlows(v: Vm, act: Act)
    requires Mutex(v) && OneUser(v) && Enabled(v, act)
    requires act.Exit? || act.ExitAcquire? || act.FreeFrames? || act.ExitRelease? || act.Gone? || act.Create?
    ensures Flows(v, act, LifeStep(v, act))
  {
    if act.Exit? {
      NotHolding(v, act.a);
      MoveFlows(v, act, DoExit(v, act.a));
    } else if act.ExitRelease? {
      SignalFlows(v, act, v.(pc := v.pc[act.a := Tail]));
    } else if act.Create? {
      CreateFlows(v, act.a);
    } else {
      LeaverFlows(v, act);
    }
  }

  lemma LeaverFlows(v: Vm, act: Act)
    requires Enabled(v, act) && (act.ExitAcquire? || act.FreeFrames? || act.Gone?)
    ensures Flows(v, act, LifeStep(v, act))
  {
    MoveFlows(v, act, LifeStep(v, act));
  }

  lemma CreateFlows(v: Vm, a: Proc)
    requires Enabled(v, Create(a))
    ensures Flows(v, Create(a), DoCreate(v, a))
  {
  }

  lemma StepFlows(v: Vm, act: Act)
    requires Mutex(v) && OneUser(v) && Enabled(v, act)
    ensures Flows(v, act, Step(v, act))
  {
    if act.Store? || act.Refill? || act.Fault? {
      UserFlows(v, act);
    } else if act.Choose? || act.Evict? || act.DmaOut? || act.WriteDone? || act.WriteFailed? {
      EvictFlows(v, act);
    } else if act.DmaIn? || act.ReadDone? || act.Install? || act.Release? || act.ReadFailed? {
      FillFlows(v, act);
    } else {
      LifeFlows(v, act);
    }
  }

  lemma FlowsDoomed(v: Vm, act: Act, v': Vm)
    requires Flows(v, act, v')
    ensures forall b :: b in v.pc && v'.pc[b] == Doomed && v.pc[b] != Doomed ==> act.ReadFailed? && act.a == b
  {
  }

  /** Every step takes the process that performs it where pager and sys2 lead, lets in the oldest
      waiter if it is a V, and leaves everybody else where they are. In particular a process is sent to
      the trap handler by its own failed read and by nothing else, and a served one returns to user
      code. */
  lemma FlowStep(v: Vm, act: Act)
    requires Mutex(v) && OneUser(v) && Enabled(v, act)
    ensures Flows(v, act, Step(v, act))
    ensures forall b :: b in v.pc && Step(v, act).pc[b] == Doomed && v.pc[b] != Doomed ==> act.ReadFailed? && act.a == b
    ensures act.Release? ==> Step(v, act).pc[act.a] == User
  {
    StepFlows(v, act);
    FlowsDoomed(v, act, Step(v, act));
  }

  /** The turn of page replacement moves only when a frame is chosen. */
  lemma TurnStays(v: Vm, act: Act)
    requires Enabled(v, act) && !act.Choose?
    ensures Step(v, act).fifo == v.fifo
  {
    if act.DmaIn? || act.ReadDone? || act.Install? || act.Release? || act.ReadFailed? {
      FillTurn(v, act);
    } else if act.Exit? || act.ExitAcquire? || act.FreeFrames? || act.ExitRelease? || act.Gone? || act.Create? {
      LifeTurn(v, act);
    }
  }

  lemma FillTurn(v: Vm, act: Act)
    requires Enabled(v, act) && (act.DmaIn? || act.ReadDone? || act.Install? || act.Release? || act.ReadFailed?)
    ensures FillStep(v, act).fifo == v.fifo
  {
  }

  lemma LifeTurn(v: Vm, act: Act)
    requires Enabled(v, act)
    requires act.Exit? || act.ExitAcquire? || act.FreeFrames? || act.ExitRelease? || act.Gone? || act.Create?
    ensures LifeStep(v, act).fifo == v.fifo
  {
  }

  /** Whoever starts, starts with a page table of fresh entries, and nobody else's changes. */
  lemma FreshStart(v: Vm, a: Proc)
    requires Enabled(v, Create(a))
    ensures var v' := Step(v, Create(a));
            && v'.pt.Keys == v.pt.Keys && v'.pc[a] == User
            && (forall p :: p in v.pt && p.asid == a.asid ==> v'.pt[p] == Pte(NO_FRAME, false))
            && (forall p :: p in v.pt && p.asid != a.asid ==> v'.pt[p] == v.pt[p])
            && v'.swap == v.swap && v'.frames == v.frames && v'.flash == v.flash && v'.tlb == v.tlb
  {
  }

  // ---------------------------------------------------------------- a fault is served

  /** `p` is in memory: its entry is valid and the frame it points to is its own. */
  predicate Loaded(v: Vm, p: PageId) {
    p in v.pt && v.pt[p].valid && 0 <= v.pt[p].frame < |v.swap| && Names(v.swap[v.pt[p].frame], p)
  }

  /** The pager is at work on `p` for `a`. */
  predicate Serving(v: Vm, a: Proc, p: PageId) {
    a in v.pc && p.asid == a.asid &&
    match v.pc[a]
    case Want(q) => q == p
    case Enter(q) => q == p
    case Chosen(q, _) => q == p
    case Writing(q, _, _) => q == p
    case Reading(q, _) => q == p
    case Filled(q, _) => q == p
    case Leave => Loaded(v, p)
    case _ => false
  }

  /** While `a` is about to leave pager, nobody touches its page. */
  lemma LeaveLoaded(v: Vm, act: Act, a: Proc, p: PageId)
    requires Inv(v) && Enabled(v, act) && act.a != a && a in v.pc && v.pc[a] == Leave && Loaded(v, p) && p.asid == a.asid
    ensures Loaded(Step(v, act), p)
  {
    LeaveTables(v, act, a, p);
  }

  lemma LeaveTables(v: Vm, act: Act, a: Proc, p: PageId)
    requires Inv(v) && Enabled(v, act) && act.a != a && a in v.pc && v.pc[a] == Leave && Loaded(v, p) && p.asid == a.asid
    ensures Step(v, act).pt == v.pt || (act.Create? && act.a.asid != p.asid && Step(v, act).pt == Blank(v.pt, act.a.asid))
    ensures Step(v, act).swap == v.swap
  {
    assert Critical(v.pc[a]) && v.owner == Some(a);
    if act.a in v.pc {
      assert !Critical(v.pc[act.a]);
    }
    if act.Exit? {
      NotHolding(v, act.a);
    }
  }

  /** Installing `p` loads it. */
  lemma InstallLoads(v: Vm, a: Proc)
    requires Inv(v) && Enabled(v, Install(a))
    ensures Loaded(DoInstall(v, a), v.pc[a].page)
    ensures DoInstall(v, a).pt[v.pc[a].page] == Pte(v.pc[a].frame, true)
  {
    assert PcOk(v, a);
    Installs(v, a);
  }

  /** `a` has just left pager for user code, with `p` loaded. */
  predicate Back(act: Act, v': Vm, a: Proc, p: PageId) {
    act == Release(a) && a in v'.pc && v'.pc[a] == User && Loaded(v', p)
  }

  /** One step on the way: the pager goes on with `p`, or `a` is back in user code with `p` loaded. */
  lemma ServingStep(v: Vm, act: Act, a: Proc, p: PageId)
    requires Inv(v) && Enabled(v, act) && Serving(v, a, p) && !(act.ReadFailed? && act.a == a)
    ensures Serving(Step(v, act), a, p) || Back(act, Step(v, act), a, p)
  {
    StepFlows(v, act);
    if v.pc[a] == Leave {
      LeaveStep(v, act, a, p);
    } else {
      if act == Install(a) {
        InstallLoads(v, a);
      }
      ServingFlows(v, act, Step(v, act), a, p);
    }
  }

  lemma ServingFlows(v: Vm, act: Act, v': Vm, a: Proc, p: PageId)
    requires Flows(v, act, v') && Serving(v, a, p) && v.pc[a] != Leave
    requires act.a == a ==> !act.ReadFailed? && !act.Create?
    requires act.a == a && act.Install? ==> Loaded(v', v.pc[a].page)
    ensures Serving(v', a, p)
  {
  }

  lemma LeaveStep(v: Vm, act: Act, a: Proc, p: PageId)
    requires Inv(v) && Enabled(v, act) && Flows(v, act, Step(v, act)) && Serving(v, a, p) && v.pc[a] == Leave
    ensures Serving(Step(v, act), a, p) || Back(act, Step(v, act), a, p)
  {
    if act.a != a {
      LeaveLoaded(v, act, a, p);
      StaysLeave(v, act, Step(v, act), a);
    } else {
      OnlyRelease(v, act, a);
      ReleaseLoaded(v, a, p);
    }
  }

  lemma OnlyRelease(v: Vm, act: Act, a: Proc)
    requires Enabled(v, act) && act.a == a && a in v.pc && v.pc[a] == Leave
    ensures act == Release(a)
  {
  }

  lemma ReleaseLoaded(v: Vm, a: Proc, p: PageId)
    requires Mutex(v) && Enabled(v, Release(a)) && Loaded(v, p)
    ensures Loaded(DoRelease(v, a), p)
  {
    FreeStore(v.(holding := v.holding - {a.asid}, pc := v.pc[a := User]));
  }

  lemma StaysLeave(v: Vm, act: Act, v': Vm, a: Proc)
    requires Flows(v, act, v') && a in v.pc && a != act.a && v.pc[a] == Leave
    requires Door(v)
    ensures a in v'.pc && v'.pc[a] == Leave
  {
  }

  /** Along the run, the first act after which the pager no longer works on `p` for `a` is its V, and
      `a` is then in user code with `p` loaded. */
  ghost predicate Returns(v: Vm, acts: seq<Act>, a: Proc, p: PageId)
    requires Possible(v, acts)
    decreases |acts|
  {
    acts != [] &&
    (var v' := Step(v, acts[0]);
     if Serving(v', a, p) then Returns(v', acts[1..], a, p)
     else Back(acts[0], v', a, p))
  }

  lemma {:induction false} ServedRun(v: Vm, acts: seq<Act>, a: Proc, p: PageId, mem: map<PageId, Page>)
    requires Inv(v) && Refines(v, mem) && Possible(v, acts) && Serving(v, a, p) && ReadsWork(acts, a)
    ensures Serving(Run(v, acts), a, p) || Returns(v, acts, a, p)
    decreases |acts|
  {
    if acts != [] {
      var v' := ServedAct(v, acts[0], a, p, mem);
      if Serving(v', a, p) {
        var rest := WorkingTail(acts, a);
        ServedRun(v', rest, a, p, Effect(v, acts[0], mem));
      }
    }
  }

  /** No read of `a` fails. */
  predicate ReadsWork(acts: seq<Act>, a: Proc) {
    forall i :: 0 <= i < |acts| ==> !(acts[i].ReadFailed? && acts[i].a == a)
  }

  lemma WorkingTail(acts: seq<Act>, a: Proc) returns (rest: seq<Act>)
    requires acts != [] && ReadsWork(acts, a)
    ensures rest == acts[1..] && |rest| == |acts| - 1 && ReadsWork(rest, a)
  {
    rest := acts[1..];
    assert forall i :: 0 <= i < |rest| ==> rest[i] == acts[i + 1];
  }

  lemma ServedAct(v: Vm, act: Act, a: Proc, p: PageId, mem: map<PageId, Page>) returns (v': Vm)
    requires Inv(v) && Refines(v, mem) && Enabled(v, act) && Guard(v, act) && Serving(v, a, p)
    requires !(act.ReadFailed? && act.a == a)
    ensures v' == Step(v, act) && Inv(v') && Refines(v', Effect(v, act, mem))
    ensures Serving(v', a, p) || Back(act, v', a, p)
  {
    v' := NextState(v, act, mem);
    ServingStep(v, act, a, p);
  }

  /** A guarded step keeps the invariant and shows some memory. */
  lemma NextState(v: Vm, act: Act, mem: map<PageId, Page>) returns (v': Vm)
    requires Inv(v) && Refines(v, mem) && Enabled(v, act) && Guard(v, act)
    ensures v' == Step(v, act) && Inv(v') && Refines(v', Effect(v, act, mem))
  {
    v' := Step(v, act);
    StepKeeps(v, act, mem);
  }

  /** Every fault is served: from a fault of `a` on `p`, in every guarded run in which no read of `a`
      fails, the pager works on `p` for `a` until `a` is back in user code with `p` in a frame of its
      own. */
  lemma FaultServed(v: Vm, a: Proc, p: PageId, acts: seq<Act>, mem: map<PageId, Page>)
    requires Inv(v) && Refines(v, mem) && Enabled(v, Fault(a, p)) && Possible(Step(v, Fault(a, p)), acts)
    requires ReadsWork(acts, a)
    ensures var v1 := Step(v, Fault(a, p));
            Serving(v1, a, p) && (Serving(Run(v1, acts), a, p) || Returns(v1, acts, a, p))
  {
    FlowStep(v, Fault(a, p));
    StepKeeps(v, Fault(a, p), mem);
    ServedRun(Step(v, Fault(a, p)), acts, a, p, mem);
  }

  // ---------------------------------------------------------------- nobody is stuck

  /** The next thing the holder of the mutex does, with devices that work. */
  function NextAct(v: Vm): Act
    requires v.owner.Some?
  {
    var a := v.owner.value;
    match Stage(v)
    case Enter(_) => Choose(a)
    case Chosen(_, _) => Evict(a)
    case Writing(_, _, _) => WriteDone(a)
    case Reading(_, _) => ReadDone(a)
    case Filled(_, _) => Install(a)
    case Leave => Release(a)
    case ExitIn => FreeFrames(a)
    case _ => ExitRelease(a)
  }

  /** How many acts it has before its V. */
  function Ahead(pc: Pc): nat {
    match pc
    case Enter(_) => 6
    case Chosen(_, _) => 5
    case Writing(_, _, _) => 4
    case Reading(_, _) => 3
    case Filled(_, _) => 2
    case Leave => 1
    case ExitIn => 2
    case _ => 1
  }

  lemma HolderMoves(v: Vm)
    requires Inv(v) && v.owner.Some?
    ensures Enabled(v, NextAct(v)) && Guard(v, NextAct(v)) && NextAct(v).a == v.owner.value
  {
    var a := v.owner.value;
    assert a in v.pc && Critical(v.pc[a]) && Stage(v) == v.pc[a];
    assert PcOk(v, a);
  }

  /** The holder comes nearer to its V, or performs it and the oldest waiter is in. */
  lemma HolderNearer(v: Vm)
    requires Mutex(v) && v.owner.Some? && Enabled(v, NextAct(v))
    ensures var v' := Step(v, NextAct(v));
            if Ahead(Stage(v)) == 1 then v'.owner == (if v.queue == [] then None else Some(v.queue[0]))
            else v'.owner == v.owner && v'.queue == v.queue && Ahead(Stage(v')) < Ahead(Stage(v))
  {
    assert Stage(v) == v.pc[v.owner.value];
    if Ahead(Stage(v)) == 1 {
      HolderSignals(v);
    } else {
      HolderGoesOn(v);
    }
  }

  lemma HolderSignals(v: Vm)
    requires Held(v) && v.owner.Some? && Enabled(v, NextAct(v)) && Ahead(Stage(v)) == 1
    ensures Step(v, NextAct(v)).owner == if v.queue == [] then None else Some(v.queue[0])
  {
    assert Critical(v.pc[v.owner.value]);
  }

  lemma HolderGoesOn(v: Vm)
    requires Held(v) && v.owner.Some? && Enabled(v, NextAct(v)) && Ahead(Stage(v)) > 1
    ensures var v' := Step(v, NextAct(v));
            v'.owner == v.owner && v'.queue == v.queue && Ahead(Stage(v')) < Ahead(Stage(v))
  {
    assert Stage(v) == v.pc[v.owner.value];
  }

  /** No deadlock: wherever the holder of the mutex is, at most six acts of its own give the mutex to
      the oldest waiter, or free it. */
  lemma {:induction false} HolderFinishes(v: Vm, mem: map<PageId, Page>) returns (acts: seq<Act>)
    requires Inv(v) && Refines(v, mem) && v.owner.Some?
    ensures Possible(v, acts) && |acts| <= Ahead(Stage(v)) <= 6
    ensures By(acts, v.owner.value)
    ensures Run(v, acts).owner == (if v.queue == [] then None else Some(v.queue[0]))
    decreases Ahead(Stage(v))
  {
    var act, v' := HolderActs(v, mem);
    var rest: seq<Act> := [];
    if Ahead(Stage(v)) > 1 {
      rest := HolderFinishes(v', Effect(v, act, mem));
    }
    acts := ActsCons(v, act, v', rest);
  }

  lemma ActsCons(v: Vm, act: Act, v': Vm, rest: seq<Act>) returns (acts: seq<Act>)
    requires Enabled(v, act) && Guard(v, act) && v' == Step(v, act) && Possible(v', rest) && By(rest, act.a)
    ensures Possible(v, acts) && Run(v, acts) == Run(v', rest) && |acts| == |rest| + 1 && By(acts, act.a)
  {
    acts := [act] + rest;
    assert acts[1..] == rest;
  }

  /** All the acts are `a`'s. */
  predicate By(acts: seq<Act>, a: Proc) { forall i :: 0 <= i < |acts| ==> acts[i].a == a }

  lemma HolderActs(v: Vm, mem: map<PageId, Page>) returns (act: Act, v': Vm)
    requires Inv(v) && Refines(v, mem) && v.owner.Some?
    ensures Enabled(v, act) && Guard(v, act) && v' == Step(v, act) && act.a == v.owner.value
    ensures Inv(v') && Refines(v', Effect(v, act, mem))
    ensures if Ahead(Stage(v)) == 1 then v'.owner == (if v.queue == [] then None else Some(v.queue[0]))
            else v'.owner == v.owner && v'.queue == v.queue && Ahead(Stage(v')) < Ahead(Stage(v))
  {
    HolderMoves(v);
    HolderNearer(v);
    act := NextAct(v);
    v' := NextState(v, act, mem);
  }

  /** An access of a running process to one of its pages always proceeds: it hits, or misses and is
      refilled, or faults. */
  lemma AccessProceeds(v: Vm, a: Proc, p: PageId)
    requires Inv(v) && a in v.pc && v.pc[a] == User && p in v.pt && p.asid == a.asid
    ensures p !in v.tlb ==> Enabled(v, Refill(a, p, {}))
    ensures p in v.tlb && v.tlb[p].valid ==> forall off, x :: Enabled(v, Store(a, p, off, x))
    ensures p in v.tlb && !v.tlb[p].valid ==> Enabled(v, Fault(a, p))
  {
    if p in v.tlb && v.tlb[p].valid {
      BusyFrame(v, p);
    }
  }

  /** Nobody is stuck: a process that is not at an end waits in the mutex's queue or can go on by itself,
      harmlessly. */
  lemma NobodyStuck(v: Vm, a: Proc) returns (act: Act)
    requires Inv(v) && a in v.pc && v.pc[a] != Dead
    ensures a in v.queue || (act.a == a && Enabled(v, act) && Guard(v, act))
    ensures a in v.queue <==> v.pc[a].Want? || v.pc[a] == ExitWant
  {
    QueuedAtDoor(v, a);
    if Critical(v.pc[a]) {
      assert v.owner == Some(a);
      HolderMoves(v);
      act := NextAct(v);
    } else {
      act := OwnAct(v, a);
    }
  }

  lemma QueuedAtDoor(v: Vm, a: Proc)
    requires Door(v) && a in v.pc
    ensures a in v.queue <==> AtDoor(v.pc[a])
  {
  }

  /** The next step of a process outside the mutex. */
  lemma OwnAct(v: Vm, a: Proc) returns (act: Act)
    requires a in v.pc && v.pc[a] != Dead && !Critical(v.pc[a])
    ensures AtDoor(v.pc[a]) || (act.a == a && Enabled(v, act) && Guard(v, act))
  {
    act := if v.pc[a].Signalled? then ExitAcquire(a) else if v.pc[a].Tail? then Gone(a) else Exit(a);
  }
}
