/** The loops of phase3's paging code on the swap pool array, and the encodings of page-table
    entries. */
module SwapPool {
  import opened Queues
  import opened Pager

  class Pool {
    const swapPool: array<Swap>
    var pt: map<PageId, Pte>
    var tlb: map<PageId, Pte>
    var fifoCont: nat

    /** initSwapPool marks every frame unoccupied. */
    constructor (n: nat, pt: map<PageId, Pte>)
      ensures fresh(swapPool) && swapPool[..] == seq(n, _ => FREE_FRAME)
      ensures this.pt == pt && tlb == map[] && fifoCont == 0
    {
      this.swapPool := new Swap[n](_ => Swap(0, 0, None));
      this.pt, this.tlb, this.fifoCont := pt, map[], 0;
      new;
      var i := 0;
      while i < n
        invariant 0 <= i <= n
        invariant forall j :: 0 <= j < i ==> swapPool[j] == FREE_FRAME
        modifies swapPool
      {
        swapPool[i] := FREE_FRAME;
        i := i + 1;
      }
    }

    /** pager's choice: the first unoccupied frame, else the next in turn. */
    method ChooseFrame() returns (i: nat)
      requires fifoCont < swapPool.Length
      modifies `fifoCont
      ensures i < swapPool.Length
      ensures var free := FirstFree(swapPool[..]);
              if free.Some? then i == free.value && fifoCont == old(fifoCont)
              else i == old(fifoCont) && fifoCont == (i + 1) % swapPool.Length
    {
      var j := 0;
      while j < swapPool.Length
        invariant 0 <= j <= swapPool.Length
        invariant forall l :: 0 <= l < j ==> swapPool[l].asid != -1
      {
        if swapPool[j].asid == -1 {
          return j;
        }
        j := j + 1;
      }
      i := fifoCont;
      fifoCont := (fifoCont + 1) % swapPool.Length;
    }

    /** freeSwapFrames between its P and V. */
    method FreeSwapFrames(asid: int)
      modifies this, swapPool
      ensures swapPool[..] == Vacated(old(swapPool[..]), asid)
      ensures pt == Invalidated(old(swapPool[..]), old(pt), asid)
      ensures tlb == map[] && fifoCont == old(fifoCont)
    {
      ghost var s := swapPool[..];
      var j := 0;
      while j < swapPool.Length
        invariant 0 <= j <= swapPool.Length && fifoCont == old(fifoCont)
        invariant forall l :: 0 <= l < j ==> swapPool[l] == Vacated(s, asid)[l]
        invariant forall l :: j <= l < swapPool.Length ==> swapPool[l] == s[l]
        invariant pt.Keys == old(pt).Keys
        invariant forall p :: p in pt ==>
                    pt[p] == if Named(s[..j], asid, p) then old(pt)[p].(valid := false) else old(pt)[p]
      {
        NamedNext(s, j, asid);
        if swapPool[j].asid == asid {
          if swapPool[j].pte.Some? && swapPool[j].pte.value in pt {
            var x := swapPool[j].pte.value;
            pt := pt[x := pt[x].(valid := false)];
          }
          swapPool[j] := FREE_FRAME;
        }
        j := j + 1;
      }
      assert s[..j] == s;
      tlb := map[];
    }
  }

  lemma NamedNext(s: seq<Swap>, j: nat, a: int)
    requires j < |s|
    ensures forall p :: Named(s[..j + 1], a, p) <==> Named(s[..j], a, p) || (s[j].asid == a && s[j].pte == Some(p))
  {
    forall p
      ensures Named(s[..j + 1], a, p) <==> Named(s[..j], a, p) || (s[j].asid == a && s[j].pte == Some(p))
    {
      if Named(s[..j], a, p) {
        var f :| 0 <= f < |s[..j]| && s[..j][f].asid == a && s[..j][f].pte == Some(p);
        assert s[..j + 1][f] == s[..j][f];
      }
      if s[j].asid == a && s[j].pte == Some(p) {
        assert s[..j + 1][j] == s[j];
      }
      if Named(s[..j + 1], a, p) {
        var f :| 0 <= f < |s[..j + 1]| && s[..j + 1][f].asid == a && s[..j + 1][f].pte == Some(p);
        assert f < j ==> s[..j][f] == s[..j + 1][f];
      }
    }
  }

  // ---------------------------------------------------------------- EntryHI and EntryLO

  const PAGESIZE := 0x1000
  const KUSEG := 0x80000000
  const USERSTACKTOP := 0xC0000000
  const FLASHPOOLSTART := 0x20000000 + 32 * PAGESIZE
  const DIRTYON := 0x400
  const VALIDON := 0x200

  /** makePrivateEntryHI: bits 12-29 of the address, the private-segment bits 10, the ASID from
      bit 6; the fields do not overlap, so their union is their sum. */
  function MakePrivateEntryHI(address: nat, asid: nat): nat
    requires asid < 64
  {
    address % 0x40000000 / PAGESIZE * PAGESIZE + 0x80000000 + asid * 64
  }

  function PageAddress(idx: nat): nat {
    if idx == 31 then USERSTACKTOP - PAGESIZE else KUSEG + idx * PAGESIZE
  }

  /** pager's missing page number: the segment and page fields. */
  function MissingPage(entryHI: nat): nat { entryHI % 0x100000000 / PAGESIZE }

  /** uTLB_RefillHandler's page-table index: the page field modulo the table size. */
  function RefillIndex(entryHI: nat): nat { entryHI % 0x40000000 / PAGESIZE % MAXPAGES }

  function EntryAsid(entryHI: nat): nat { entryHI % PAGESIZE / 64 }

  /** The EntryHI of each page of each U-proc leads the refill handler and the pager back to that
      page, and its ASID field to that U-proc: no two pages share one. */
  lemma EntryHiInverse(idx: nat, asid: nat)
    requires idx < MAXPAGES && asid < 64
    ensures var hi := MakePrivateEntryHI(PageAddress(idx), asid);
            RefillIndex(hi) == idx && MissingPage(hi) == Vpn(idx) && GetFlashBlock(MissingPage(hi)) == idx &&
            EntryAsid(hi) == asid
    ensures MakePrivateEntryHI(PageAddress(idx), asid) ==
            (if idx == 31 then 0xBFFFF000 else 0x80000000 + idx * 0x1000) + asid * 0x40
  {
    var hi := MakePrivateEntryHI(PageAddress(idx), asid);
    assert hi == Vpn(idx) * PAGESIZE + asid * 64;
    assert MissingPage(hi) == Vpn(idx);
    assert hi % PAGESIZE == asid * 64;
    assert hi % 0x40000000 == (Vpn(idx) - 0x80000) * PAGESIZE + asid * 64;
  }

  /** For an address of a user segment the refill handler loads the entry of the page it belongs to
      if and only if that page is one of the 32 the program has; for any other it loads the entry of
      one of those, so the access misses again. */
  lemma RefillIsOwn(hi: nat, asid: nat)
    requires KUSEG <= hi < USERSTACKTOP && asid < 64
    ensures MissingPage(MakePrivateEntryHI(PageAddress(RefillIndex(hi)), asid)) == MissingPage(hi) <==>
              0x80000 <= MissingPage(hi) <= 0x8001E || MissingPage(hi) == 0xBFFFF
  {
    var idx, n := RefillIndex(hi), MissingPage(hi);
    EntryHiInverse(idx, asid);
    assert n == 0x80000 + hi % 0x40000000 / PAGESIZE;
    assert 0x80000 <= n <= 0xBFFFF;
    assert idx == (n - 0x80000) % MAXPAGES;
  }

  /** The first page past the text and data is answered with the stack's entry. */
  lemma RefillPastData(asid: nat)
    requires asid < 64
    ensures var hi := 0x8001F * PAGESIZE + asid * 64;
            && MissingPage(hi) == 0x8001F && EntryAsid(hi) == asid
            && MissingPage(MakePrivateEntryHI(PageAddress(RefillIndex(hi)), asid)) == 0xBFFFF
  {
    var hi := 0x8001F * PAGESIZE + asid * 64;
    EntryHiInverse(31, asid);
    assert hi % 0x40000000 == 0x1F * PAGESIZE + asid * 64;
    assert hi / PAGESIZE == 0x8001F && hi % PAGESIZE == asid * 64;
  }

  function EntryLo(e: Pte): nat
    requires e.frame >= NO_FRAME
  {
    FLASHPOOLSTART + e.frame * PAGESIZE + DIRTYON + if e.valid then VALIDON else 0
  }

  function LoFrame(lo: nat): int { lo / PAGESIZE - FLASHPOOLSTART / PAGESIZE }

  predicate LoValid(lo: nat) { lo / VALIDON % 2 == 1 }

  /** `lo & ~VALIDON`. */
  function ClearValid(lo: nat): int { if LoValid(lo) then lo - VALIDON else lo }

  /** EntryLO holds the frame and the valid bit, and clearing the bit clears nothing else. */
  lemma EntryLoInverse(e: Pte)
    requires e.frame >= NO_FRAME
    ensures LoFrame(EntryLo(e)) == e.frame && LoValid(EntryLo(e)) == e.valid
    ensures ClearValid(EntryLo(e)) == EntryLo(e.(valid := false))
    ensures EntryLo(Pte(NO_FRAME, false)) == DIRTYON == 0x400
    ensures EntryLo(e) == 0x20020000 + e.frame * 0x1000 + if e.valid then 0x600 else 0x400
  {
    LoFields(EntryLo(e), 0x20020 + e.frame, e.valid);
  }

  /** The word of frame number `f` with or without the valid bit, taken apart. */
  lemma LoFields(lo: nat, f: nat, valid: bool)
    requires lo == f * 4096 + if valid then 1536 else 1024
    ensures lo / 4096 == f && (lo / 512 % 2 == 1 <==> valid)
  {
    assert lo / 512 == 2 * (f * 4 + 1) + if valid then 1 else 0;
  }

  /** initPageTable: entries 0..30 for text and data, entry 31 for the stack, all invalid. */
  method InitPageTable(hi: array<nat>, lo: array<nat>, asid: nat)
    requires hi != lo && hi.Length == MAXPAGES && lo.Length == MAXPAGES && asid < 64
    modifies hi, lo
    ensures forall i :: 0 <= i < MAXPAGES ==> hi[i] == MakePrivateEntryHI(PageAddress(i), asid) && lo[i] == DIRTYON
    ensures forall i :: 0 <= i < MAXPAGES ==> RefillIndex(hi[i]) == i && EntryAsid(hi[i]) == asid && !LoValid(lo[i])
  {
    var i := 0;
    while i < MAXPAGES - 1
      invariant 0 <= i <= MAXPAGES - 1
      invariant forall j :: 0 <= j < i ==> hi[j] == MakePrivateEntryHI(PageAddress(j), asid) && lo[j] == DIRTYON
    {
      hi[i] := MakePrivateEntryHI(KUSEG + i * PAGESIZE, asid);
      lo[i] := DIRTYON;
      i := i + 1;
    }
    hi[i] := MakePrivateEntryHI(USERSTACKTOP - PAGESIZE, asid);
    lo[i] := DIRTYON;
    forall j | 0 <= j < MAXPAGES
      ensures RefillIndex(hi[j]) == j && EntryAsid(hi[j]) == asid && !LoValid(lo[j])
    {
      EntryHiInverse(j, asid);
    }
  }
}
