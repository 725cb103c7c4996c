/** Demand paging as a state machine. The pager waits for the swap mutex and twice for the flash
    device; between those points it interleaves with the loads, stores, refills, faults and exits
    of every other U-proc. A U-proc that has signalled the shell can be at any point of its exit
    while a successor with its ASID runs. */
module Pager {
  import opened Queues

  const MAXPAGES := 32

  /** A page of a U-proc: also the identity of its page-table entry and of its flash block. */
  datatype PageId = PageId(asid: int, idx: int)

  /** A process: its ASID, and which of those started with that ASID it is. */
  datatype Proc = Proc(asid: int, run: int)

  type Page = map<int, int>

  /** EntryLO: the frame, counted from the start of the pool, and the valid bit. */
  datatype Pte = Pte(frame: int, valid: bool)

  /** The frame field of an entry that never had one: physical page 0, below the pool. */
  const NO_FRAME := -0x20020

  datatype Swap = Swap(asid: int, pageNo: int, pte: Option<PageId>)

  const FREE_FRAME := Swap(-1, -1, None)

  /** How far a process is. Want .. Leave are the points of pager; Signalled .. Tail those of sys2
      from its V on the shell's semaphore on, ExitIn .. ExitOut being freeSwapFrames between P and V. */
  datatype Pc =
    | Dead | User
    | Want(page: PageId) | Enter(page: PageId) | Chosen(page: PageId, frame: nat)
    | Writing(page: PageId, frame: nat, victim: PageId)
    | Reading(page: PageId, frame: nat) | Filled(page: PageId, frame: nat) | Leave
    | Doomed | Signalled | ExitWant | ExitIn | ExitOut | Tail

  /** `sem` and `queue` are swapSemaphore and those blocked on it; `owner` is bookkeeping: whom
      the semaphore protocol last let in and has not seen leave. `holding` are the ASIDs whose
      holdingSwapMutex is set. Page tables and flags belong to the ASID, not to the process. */
  datatype Vm = Vm(
    swap: seq<Swap>, frames: seq<Page>, pt: map<PageId, Pte>, tlb: map<PageId, Pte>,
    flash: map<PageId, Page>, fifo: nat, sem: int, queue: seq<Proc>, owner: Option<Proc>,
    holding: set<int>, pc: map<Proc, Pc>)

  /** Virtual page number of a page-table index, and getFlashBlock back. */
  function Vpn(idx: int): int { if idx == 31 then 0xBFFFF else 0x80000 + idx }

  function GetFlashBlock(vpn: int): int { if vpn == 0xBFFFF then 31 else vpn - 0x80000 }

  // ---------------------------------------------------------------- the swap mutex

  /** NSYS3 on swapSemaphore by `a`. */
  function Acquire(v: Vm, a: Proc, wait: Pc, enter: Pc): Vm {
    if v.sem > 0 then v.(sem := v.sem - 1, owner := Some(a), pc := v.pc[a := enter])
    else v.(queue := v.queue + [a], pc := v.pc[a := wait])
  }

  function Admit(pc: Pc): Pc {
    match pc
    case Want(p) => Enter(p)
    case ExitWant => ExitIn
    case _ => pc
  }

  /** NSYS4 on swapSemaphore: the oldest waiter gets in, or the value goes up. */
  function Free(v: Vm): Vm {
    if v.queue == [] then v.(sem := v.sem + 1, owner := None)
    else
      var b := v.queue[0];
      v.(queue := v.queue[1..], owner := Some(b), pc := if b in v.pc then v.pc[b := Admit(v.pc[b])] else v.pc)
  }

  // ---------------------------------------------------------------- the steps

  datatype Act =
    | Store(a: Proc, p: PageId, off: int, x: int)
    | Refill(a: Proc, p: PageId, evicted: set<PageId>)
    | Fault(a: Proc, p: PageId)
    | Choose(a: Proc) | Evict(a: Proc) | DmaOut(a: Proc, junk: Page) | WriteDone(a: Proc)
    | DmaIn(a: Proc, junk: Page) | ReadDone(a: Proc) | Install(a: Proc) | Release(a: Proc)
    | WriteFailed(a: Proc) | ReadFailed(a: Proc, junk: Page)
    | Exit(a: Proc) | ExitAcquire(a: Proc) | FreeFrames(a: Proc) | ExitRelease(a: Proc) | Gone(a: Proc)
    | Create(a: Proc)

  /** The process has signalled the shell, which may start another with its ASID. */
  predicate Leaver(pc: Pc) { pc.Signalled? || pc.ExitWant? || pc.ExitIn? || pc.ExitOut? || pc.Tail? || pc.Dead? }

  /** The process is past the loop of freeSwapFrames. */
  predicate Departed(pc: Pc) { pc.ExitOut? || pc.Tail? || pc.Dead? }

  /** `a` runs user code and `p` is one of its pages. */
  predicate Uses(v: Vm, a: Proc, p: PageId) { a in v.pc && v.pc[a] == User && p.asid == a.asid }

  predicate Enabled(v: Vm, act: Act) {
    match act
    case Store(a, p, _, _) => Uses(v, a, p) && p in v.tlb && v.tlb[p].valid && 0 <= v.tlb[p].frame < |v.frames|
    case Refill(a, p, _) => Uses(v, a, p) && p in v.pt && p !in v.tlb
    case Fault(a, p) => Uses(v, a, p) && p in v.tlb && !v.tlb[p].valid
    case Choose(a) => a in v.pc && v.pc[a].Enter?
    case Evict(a) => a in v.pc && v.pc[a].Chosen? && v.pc[a].frame < |v.swap|
    case DmaOut(a, _) => a in v.pc && v.pc[a].Writing?
    case WriteDone(a) => a in v.pc && v.pc[a].Writing? && v.pc[a].frame < |v.frames|
    case DmaIn(a, _) => a in v.pc && v.pc[a].Reading? && v.pc[a].frame < |v.frames|
    case WriteFailed(a) => a in v.pc && v.pc[a].Writing? && v.pc[a].frame < |v.frames|
    case ReadFailed(a, _) => a in v.pc && v.pc[a].Reading? && v.pc[a].frame < |v.frames| && v.pc[a].frame < |v.swap|
    case ReadDone(a) => a in v.pc && v.pc[a].Reading? && v.pc[a].frame < |v.frames| && v.pc[a].page in v.flash
    case Install(a) => a in v.pc && v.pc[a].Filled? && v.pc[a].frame < |v.swap|
    case Release(a) => a in v.pc && v.pc[a].Leave?
    case Exit(a) => a in v.pc && (v.pc[a].User? || v.pc[a].Doomed?)
    case ExitAcquire(a) => a in v.pc && v.pc[a].Signalled?
    case FreeFrames(a) => a in v.pc && v.pc[a].ExitIn?
    case ExitRelease(a) => a in v.pc && v.pc[a].ExitOut?
    case Gone(a) => a in v.pc && v.pc[a].Tail?
    case Create(a) => a !in v.pc && forall b :: b in v.pc && b.asid == a.asid ==> Leaver(v.pc[b])
  }

  /** The first free frame, if any. */
  function FirstFree(swap: seq<Swap>, i: nat := 0): (r: Option<nat>)
    requires i <= |swap|
    ensures r.Some? ==> i <= r.value < |swap| && swap[r.value].asid == -1
    ensures forall j :: i <= j < (if r.Some? then r.value else |swap|) ==> swap[j].asid != -1
    decreases |swap| - i
  {
    if i == |swap| then None else if swap[i].asid == -1 then Some(i) else FirstFree(swap, i + 1)
  }

  function SetTlb(tlb: map<PageId, Pte>, p: PageId, e: Pte): map<PageId, Pte> {
    if p in tlb then tlb[p := e] else tlb
  }

  /** Pick a frame: a free one, or the next victim in turn. */
  function DoChoose(v: Vm, a: Proc): Vm
    requires a in v.pc && v.pc[a].Enter?
  {
    var f := FirstFree(v.swap);
    var v1 := v.(holding := v.holding + {a.asid});
    if f.Some? then v1.(pc := v.pc[a := Chosen(v.pc[a].page, f.value)])
    else v1.(pc := v.pc[a := Chosen(v.pc[a].page, v.fifo)],
             fifo := if |v.swap| == 0 then v.fifo else (v.fifo + 1) % |v.swap|)
  }

  /** The first interrupts-off window: invalidate the occupant's entry, in memory and in the TLB;
      then start writing the frame back. */
  function DoEvict(v: Vm, a: Proc): Vm
    requires a in v.pc && v.pc[a].Chosen? && v.pc[a].frame < |v.swap|
  {
    var Chosen(p, f) := v.pc[a];
    var s := v.swap[f];
    if s.asid == -1 || s.pte.None? || s.pte.value !in v.pt then v.(pc := v.pc[a := Reading(p, f)])
    else
      var x := s.pte.value;
      var e := v.pt[x].(valid := false);
      v.(pt := v.pt[x := e], tlb := SetTlb(v.tlb, x, e),
         pc := v.pc[a := Writing(p, f, PageId(s.asid, GetFlashBlock(s.pageNo)))])
  }

  /** The second window: the swap entry, the page-table entry and the TLB name the new page. */
  function DoInstall(v: Vm, a: Proc): Vm
    requires a in v.pc && v.pc[a].Filled? && v.pc[a].frame < |v.swap|
  {
    var Filled(p, f) := v.pc[a];
    var x := PageId(a.asid, GetFlashBlock(Vpn(p.idx)));
    var e := Pte(f, true);
    v.(swap := v.swap[f := Swap(a.asid, Vpn(p.idx), Some(x))], pt := v.pt[x := e],
       tlb := SetTlb(v.tlb, x, e), pc := v.pc[a := Leave])
  }

  /** The entries freeSwapFrames clears the valid bit of. */
  predicate Named(swap: seq<Swap>, a: int, p: PageId) {
    exists f :: 0 <= f < |swap| && swap[f].asid == a && swap[f].pte == Some(p)
  }

  function Invalidated(swap: seq<Swap>, pt: map<PageId, Pte>, a: int): map<PageId, Pte> {
    map p | p in pt :: if Named(swap, a, p) then pt[p].(valid := false) else pt[p]
  }

  function Vacated(swap: seq<Swap>, a: int): (r: seq<Swap>)
    ensures |r| == |swap|
  {
    seq(|swap|, i requires 0 <= i < |swap| => if swap[i].asid == a then FREE_FRAME else swap[i])
  }

  /** initPageTable: every entry of the U-proc invalid. */
  function Blank(pt: map<PageId, Pte>, a: int): map<PageId, Pte> {
    map p | p in pt :: if p.asid == a then Pte(NO_FRAME, false) else pt[p]
  }

  function DoStore(v: Vm, p: PageId, off: int, x: int): Vm
    requires p in v.tlb && 0 <= v.tlb[p].frame < |v.frames|
  {
    var f := v.tlb[p].frame;
    v.(frames := v.frames[f := v.frames[f][off := x]])
  }

  /** uTLB_RefillHandler: TLBWR may push other entries out. */
  function DoRefill(v: Vm, p: PageId, evicted: set<PageId>): Vm
    requires p in v.pt
  {
    v.(tlb := (v.tlb - evicted)[p := v.pt[p]])
  }

  function DoWriteDone(v: Vm, a: Proc): Vm
    requires a in v.pc && v.pc[a].Writing? && v.pc[a].frame < |v.frames|
  {
    var Writing(p, f, x) := v.pc[a];
    v.(flash := v.flash[x := v.frames[f]], pc := v.pc[a := Reading(p, f)])
  }

  function DoReadDone(v: Vm, a: Proc): Vm
    requires a in v.pc && v.pc[a].Reading? && v.pc[a].frame < |v.frames| && v.pc[a].page in v.flash
  {
    var Reading(p, f) := v.pc[a];
    v.(frames := v.frames[f := v.flash[p]], pc := v.pc[a := Filled(p, f)])
  }

  /** The status of the write-back is not looked at: the read follows whatever reached the block. */
  function DoWriteFailed(v: Vm, a: Proc): Vm
    requires a in v.pc && v.pc[a].Writing?
  {
    v.(pc := v.pc[a := Reading(v.pc[a].page, v.pc[a].frame)])
  }

  /** A failed read clears the flag and releases the mutex, with the frame's swap entry as it was;
      the process goes on to sys2. */
  function DoReadFailed(v: Vm, a: Proc, junk: Page): Vm
    requires a in v.pc && v.pc[a].Reading? && v.pc[a].frame < |v.frames|
  {
    Free(v.(frames := v.frames[v.pc[a].frame := junk], holding := v.holding - {a.asid}, pc := v.pc[a := Doomed]))
  }

  function DoRelease(v: Vm, a: Proc): Vm {
    Free(v.(holding := v.holding - {a.asid}, pc := v.pc[a := User]))
  }

  /** sys2 up to its V on the semaphore the shell, or the instantiator, waits on. */
  function DoExit(v: Vm, a: Proc): Vm {
    var v1 := if a.asid in v.holding then Free(v.(holding := v.holding - {a.asid})) else v;
    v1.(pc := v1.pc[a := Signalled])
  }

  /** The loop of freeSwapFrames: it goes by the ASID, whoever the frames belong to by now. */
  function DoFreeFrames(v: Vm, a: Proc): Vm {
    v.(swap := Vacated(v.swap, a.asid), pt := Invalidated(v.swap, v.pt, a.asid), tlb := map[], pc := v.pc[a := ExitOut])
  }

  function DoCreate(v: Vm, a: Proc): Vm { v.(pt := Blank(v.pt, a.asid), pc := v.pc[a := User]) }

  /** The memory accesses of user code. */
  function UserStep(v: Vm, act: Act): Vm
    requires Enabled(v, act) && (act.Store? || act.Refill? || act.Fault?)
  {
    match act
    case Store(_, p, off, x) => DoStore(v, p, off, x)
    case Refill(_, p, evicted) => DoRefill(v, p, evicted)
    case Fault(a, p) => Acquire(v, a, Want(p), Enter(p))
  }

  /** pager up to the end of the write-back. */
  function EvictStep(v: Vm, act: Act): Vm
    requires Enabled(v, act) && (act.Choose? || act.Evict? || act.DmaOut? || act.WriteDone? || act.WriteFailed?)
  {
    match act
    case Choose(a) => DoChoose(v, a)
    case Evict(a) => DoEvict(v, a)
    case DmaOut(a, junk) => v.(flash := v.flash[v.pc[a].victim := junk])
    case WriteDone(a) => DoWriteDone(v, a)
    case WriteFailed(a) => DoWriteFailed(v, a)
  }

  /** pager from the read on. */
  function FillStep(v: Vm, act: Act): Vm
    requires Enabled(v, act) && (act.DmaIn? || act.ReadDone? || act.Install? || act.Release? || act.ReadFailed?)
  {
    match act
    case DmaIn(a, junk) => v.(frames := v.frames[v.pc[a].frame := junk])
    case ReadDone(a) => DoReadDone(v, a)
    case Install(a) => DoInstall(v, a)
    case Release(a) => DoRelease(v, a)
    case ReadFailed(a, junk) => DoReadFailed(v, a, junk)
  }

  /** The end of a U-proc and the start of the next with its ASID. */
  function LifeStep(v: Vm, act: Act): Vm
    requires Enabled(v, act)
    requires act.Exit? || act.ExitAcquire? || act.FreeFrames? || act.ExitRelease? || act.Gone? || act.Create?
  {
    match act
    case Exit(a) => DoExit(v, a)
    case ExitAcquire(a) => Acquire(v, a, ExitWant, ExitIn)
    case FreeFrames(a) => DoFreeFrames(v, a)
    case ExitRelease(a) => Free(v.(pc := v.pc[a := Tail]))
    case Gone(a) => v.(pc := v.pc[a := Dead])
    case Create(a) => DoCreate(v, a)
  }

  function Step(v: Vm, act: Act): Vm
    requires Enabled(v, act)
  {
    if act.Store? || act.Refill? || act.Fault? then UserStep(v, act)
    else if act.Choose? || act.Evict? || act.DmaOut? || act.WriteDone? || act.WriteFailed? then EvictStep(v, act)
    else if act.DmaIn? || act.ReadDone? || act.Install? || act.Release? || act.ReadFailed? then FillStep(v, act)
    else LifeStep(v, act)
  }

  // ---------------------------------------------------------------- the invariant

  predicate Critical(pc: Pc) {
    pc.Enter? || pc.Chosen? || pc.Writing? || pc.Reading? || pc.Filled? || pc.Leave? || pc.ExitIn? || pc.ExitOut?
  }

  predicate AtDoor(pc: Pc) { pc.Want? || pc.ExitWant? }

  predicate Flagged(pc: Pc) { pc.Chosen? || pc.Writing? || pc.Reading? || pc.Filled? || pc.Leave? }

  /** Where the holder of the swap mutex is. */
  function Stage(v: Vm): Pc {
    if v.owner.Some? && v.owner.value in v.pc then v.pc[v.owner.value] else Dead
  }

  predicate InTransit(pc: Pc) { pc.Writing? || pc.Reading? || pc.Filled? }

  /** Frame `f` is between its old and its new page. */
  predicate Busy(v: Vm, f: int) { InTransit(Stage(v)) && Stage(v).frame == f }

  ghost predicate Domains(v: Vm) {
    && |v.swap| == |v.frames| && v.fifo < |v.swap|
    && v.pt.Keys == v.flash.Keys && v.tlb.Keys <= v.pt.Keys
    && (forall p :: p in v.pt ==> p.asid > 0 && 0 <= p.idx < MAXPAGES)
  }

  /** Those at the semaphore are queued once. */
  ghost predicate Door(v: Vm) {
    && (forall i :: 0 <= i < |v.queue| ==> v.queue[i] in v.pc && AtDoor(v.pc[v.queue[i]]))
    && (forall i, j :: 0 <= i < j < |v.queue| ==> v.queue[i] != v.queue[j])
    && (forall a :: a in v.pc && AtDoor(v.pc[a]) ==> a in v.queue)
  }

  /** The holder is the one process between P and V, and the semaphore and holdingSwapMutex say so. */
  ghost predicate Held(v: Vm) {
    && (forall a :: a in v.pc ==> (Critical(v.pc[a]) <==> v.owner == Some(a)))
    && (v.owner.Some? ==> v.owner.value in v.pc)
    && v.sem == (if v.owner.None? then 1 else 0)
    && (v.queue != [] ==> v.owner.Some?)
    && v.holding == (if v.owner.Some? && Flagged(Stage(v)) then {v.owner.value.asid} else {})
  }

  ghost predicate Mutex(v: Vm) { Door(v) && Held(v) }

  /** Every TLB entry is the current page-table entry. */
  ghost predicate Coherent(v: Vm) { forall p :: p in v.tlb ==> p in v.pt && v.tlb[p] == v.pt[p] }

  predicate Names(s: Swap, p: PageId) { s == Swap(p.asid, Vpn(p.idx), Some(p)) }

  /** A valid entry points to a frame whose swap entry names it. */
  ghost predicate PteOk(v: Vm, p: PageId)
    requires p in v.pt
  {
    v.pt[p].valid ==> 0 <= v.pt[p].frame < |v.swap| && Names(v.swap[v.pt[p].frame], p)
  }

  /** A swap entry is free, or names a page whose entry is valid and points back; while the frame
      changes hands, the page it still names is not resident. */
  ghost predicate FrameOk(v: Vm, f: nat)
    requires f < |v.swap|
  {
    v.swap[f] == FREE_FRAME ||
    (v.swap[f].pte.Some? &&
     var p := v.swap[f].pte.value;
     && p in v.pt && Names(v.swap[f], p)
     && if Busy(v, f) then !v.pt[p].valid else v.pt[p] == Pte(f, true))
  }

  ghost predicate Tables(v: Vm) {
    && (forall p {:trigger PteOk(v, p)} :: p in v.pt ==> PteOk(v, p))
    && (forall f: nat {:trigger FrameOk(v, f)} :: f < |v.swap| ==> FrameOk(v, f))
  }

  predicate Missing(v: Vm, a: Proc, p: PageId) { p in v.pt && p.asid == a.asid && !v.pt[p].valid }

  /** What each process has established by the point it is at. */
  ghost predicate PcOk(v: Vm, a: Proc)
    requires a in v.pc
  {
    match v.pc[a]
    case Want(p) => Missing(v, a, p)
    case Enter(p) => Missing(v, a, p)
    case Chosen(p, f) => Missing(v, a, p) && f < |v.swap|
    case Writing(p, f, x) => Missing(v, a, p) && f < |v.swap| && x in v.pt && x != p && Names(v.swap[f], x)
    case Reading(p, f) => Missing(v, a, p) && f < |v.swap|
    case Filled(p, f) => Missing(v, a, p) && f < |v.swap| && f < |v.frames| && p in v.flash && v.frames[f] == v.flash[p]
    case _ => true
  }

  ghost predicate PcsOk(v: Vm) { forall a {:trigger PcOk(v, a)} :: a in v.pc ==> PcOk(v, a) }

  /** The process has not given up its frames. */
  predicate Active(v: Vm, a: Proc) { a in v.pc && !Departed(v.pc[a]) }

  ghost predicate InUse(v: Vm, asid: int) { exists a :: Active(v, a) && a.asid == asid }

  predicate Resident(v: Vm, p: PageId) { p in v.pt && (v.pt[p].valid || p in v.tlb) }

  /** Only an ASID in use has anything resident. */
  ghost predicate GoneOk(v: Vm) { forall p :: Resident(v, p) ==> InUse(v, p.asid) }

  /** No two processes that have not given up their frames share an ASID. */
  ghost predicate OneUser(v: Vm) { forall a, b :: Active(v, a) && Active(v, b) && a.asid == b.asid ==> a == b }

  ghost predicate Inv(v: Vm) {
    Domains(v) && Mutex(v) && Coherent(v) && Tables(v) && PcsOk(v) && GoneOk(v) && OneUser(v)
  }

  // ---------------------------------------------------------------- the memory it implements

  predicate Flying(v: Vm, p: PageId) { Stage(v).Writing? && Stage(v).victim == p }

  /** `mem` is what the U-procs see: the frame of a resident page, the frame of a victim still
      being written back, the flash block of any other page. */
  ghost predicate Refines(v: Vm, mem: map<PageId, Page>) {
    && mem.Keys == v.pt.Keys
    && (forall p :: p in v.pt && v.pt[p].valid ==> 0 <= v.pt[p].frame < |v.frames| && mem[p] == v.frames[v.pt[p].frame])
    && (forall p :: p in v.pt && !v.pt[p].valid && !Flying(v, p) ==> p in v.flash && mem[p] == v.flash[p])
    && (Stage(v).Writing? ==> Stage(v).victim in mem && Stage(v).frame < |v.frames| &&
                              mem[Stage(v).victim] == v.frames[Stage(v).frame])
  }

  /** The whole effect of a step on that memory: a store writes one word; giving up one's frames
      reverts the pages of one's ASID to flash; nothing else is visible. */
  function Effect(v: Vm, act: Act, mem: map<PageId, Page>): map<PageId, Page> {
    match act
    case Store(_, p, off, x) => if p in mem then mem[p := mem[p][off := x]] else mem
    case FreeFrames(a) => Reverted(v, a.asid, mem)
    case _ => mem
  }

  function Reverted(v: Vm, asid: int, mem: map<PageId, Page>): map<PageId, Page> {
    map p | p in mem :: if p.asid == asid && p in v.flash then v.flash[p] else mem[p]
  }

  /** When a step does no harm: a failed write-back if the block already held what the frame holds,
      a failed read if the frame had been free, a new process if no predecessor with its ASID has
      the loop of freeSwapFrames still before it. */
  predicate Guard(v: Vm, act: Act)
    requires Enabled(v, act)
  {
    match act
    case WriteFailed(a) => v.pc[a].victim in v.flash && v.flash[v.pc[a].victim] == v.frames[v.pc[a].frame]
    case ReadFailed(a, _) => v.swap[v.pc[a].frame] == FREE_FRAME
    case Create(a) => forall b :: b in v.pc && b.asid == a.asid ==> Departed(v.pc[b])
    case _ => true
  }
}
