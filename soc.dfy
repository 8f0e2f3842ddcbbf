/*
 * The per-family register interface of the CPU port (struct rtl83xx_soc)
 * and the operations the RTL838x and RTL839x implementations share
 * line for line, differing only in register names.  The register
 * addresses and bit masks come from the family headers and are carried
 * by a Layout record; the operations that differ between the families
 * live in the Rtl838x and Rtl839x modules.
 */
module Soc {
  import opened Mmio
  import opened EthDefs
  import opened Tables
  import opened Ring
  import opened Bits

  /** One address per RX ring. */
  type RingRegs = s: seq<int> | |s| == RX_NUM_RINGS witness [0, 0]

  /**
   * The family header's register addresses (after REG(), i.e. absolute)
   * and bit masks, one Layout per family.  Shifted masks are stored
   * already shifted: rxDoneMsk is 0xff << _..._RX_DONE and so on.
   */
  datatype Layout = Layout(
    macAddr: int, macAle: int, mac2: int,
    dmaIfCtrl: int, txFetch: bv32, txEn: bv32, rxEn: bv32,
    portCtrl: int, txRxEn: bv32,
    forceModeCtrl: int, forceBits: bv32, forceOn: bv32,
    rxBaseDesc: RingRegs, txBaseDesc: RingRegs, rxRingSize: RingRegs, rxRingCntr: RingRegs,
    rxCur: RingRegs,
    intrMsk: int, intrSts: int,
    runOutMsk: bv32, rxDoneMsk: bv32, txDoneMsk: bv32, txAllDoneMsk: bv32,
    runOutSts: bv32, rxDoneSts: bv32, txDoneSts: bv32, txAllDoneSts: bv32,
    rstGlbCtrl: int, nicRst: bv32,
    l2FlushCtrl: int, l2FlushSts: bv32, l2FlushPortCmp: bv32,
    cngstEn: int, eeeGigaCtrl: int, eeeGeliteCtrl: int,
    notifyMask: bv32,
    tables: TableRegs)

  /** The interrupt mask and status registers and the RX hardware pointers are four registers. */
  predicate IntrRegsApart(L: Layout)
  {
    L.intrMsk != L.intrSts &&
    L.rxCur[0] != L.intrMsk && L.rxCur[0] != L.intrSts &&
    L.rxCur[1] != L.intrMsk && L.rxCur[1] != L.intrSts
  }

  /** The TX and RX enable bits of DMA_IF_CTRL, which dma_if_rxtx switches together. */
  function DmaRxtxBits(L: Layout): bv32
  {
    L.txEn | L.rxEn
  }

  /** The RX-run-out, RX-done, TX-done and TX-all-done enable bits of dma_irq. */
  function RxTxMask(L: Layout): bv32
  {
    L.runOutMsk | L.rxDoneMsk | L.txDoneMsk | L.txAllDoneMsk
  }

  /**
   * The new interrupt mask dma_irq writes, as the code computes it:
   * enable ORs the RX/TX bits in, disable ANDs the mask with them.
   */
  function DmaIrqValue(v: bv32, L: Layout, enable: bool): bv32
  {
    if enable then v | RxTxMask(L) else v & RxTxMask(L)
  }

  /** Unfolding helpers: one bit-vector fact per lemma keeps each proof small. */
  lemma DmaIrqOr(v: bv32, L: Layout)
    ensures DmaIrqValue(v, L, true) == v | RxTxMask(L)
  {
  }

  lemma DmaIrqAnd(v: bv32, L: Layout)
    ensures DmaIrqValue(v, L, false) == v & RxTxMask(L)
  {
  }

  /** Enabling turns every RX/TX interrupt on. */
  lemma DmaIrqEnables(v: bv32, L: Layout)
    ensures DmaIrqValue(v, L, true) & RxTxMask(L) == RxTxMask(L)
  {
    DmaIrqOr(v, L);
    SetFacts(v, RxTxMask(L));
  }

  /** Enabling keeps every mask bit outside the RX/TX interrupts. */
  lemma DmaIrqEnableKeeps(v: bv32, L: Layout)
    ensures DmaIrqValue(v, L, true) & !RxTxMask(L) == v & !RxTxMask(L)
  {
    DmaIrqOr(v, L);
    SetFacts(v, RxTxMask(L));
  }

  /**
   * Disabling as written (`val &= rxtx`) leaves exactly the RX/TX bits:
   * after an enable, a disable turns no RX/TX interrupt off and clears
   * only the unrelated mask bits.
   */
  lemma DmaIrqDisableKeepsEnabled(v: bv32, L: Layout)
    ensures DmaIrqValue(DmaIrqValue(v, L, true), L, false) == RxTxMask(L)
  {
    DmaIrqOr(v, L);
    DmaIrqAnd(DmaIrqValue(v, L, true), L);
    SetFacts(v, RxTxMask(L));
  }

  /**
   * The evidently intended dma_irq: disabling clears the RX/TX bits.  It
   * agrees with the code when enabling, the only direction the driver uses.
   */
  function DmaIrqIntended(v: bv32, L: Layout, enable: bool): bv32
  {
    Toggle(v, RxTxMask(L), enable)
  }

  /** With the correction, disabling turns every RX/TX interrupt off. */
  lemma DmaIrqIntendedDisables(v: bv32, L: Layout)
    ensures DmaIrqIntended(v, L, false) & RxTxMask(L) == 0
  {
    ToggleSets(v, RxTxMask(L), false);
  }

  /** With the correction, disabling keeps every other mask bit. */
  lemma DmaIrqIntendedDisableKeeps(v: bv32, L: Layout)
    ensures DmaIrqIntended(v, L, false) & !RxTxMask(L) == v & !RxTxMask(L)
  {
    ToggleKeeps(v, RxTxMask(L), false);
  }

  /** The code and the correction agree whenever interrupts are enabled. */
  lemma DmaIrqIntendedAgrees(v: bv32, L: Layout)
    ensures DmaIrqIntended(v, L, true) == DmaIrqValue(v, L, true)
  {
    DmaIrqOr(v, L);
  }

  /** The status bits the interrupt handler clears once it has seen them. */
  function TxStsBits(L: Layout): bv32 { L.txDoneSts | L.txAllDoneSts }

  /** The write of a read-modify-write of register a that sets or clears the bits of msk. */
  function RmwWrite(regs: map<int, bv32>, a: int, msk: bv32, enable: bool): Write
  {
    W(a, Toggle(Get(regs, a), msk, enable))
  }

  /** The registers after that read-modify-write. */
  function RmwRegs(regs: map<int, bv32>, a: int, msk: bv32, enable: bool): map<int, bv32>
  {
    regs[a := Toggle(Get(regs, a), msk, enable)]
  }

  /** Read-modify-write of register a: set or clear the bits of m. */
  method SetBits(rf: RegFile, a: int, m: bv32, enable: bool)
    modifies rf
    ensures rf.regs == RmwRegs(old(rf.regs), a, m, enable)
    ensures rf.trace == old(rf.trace) + [RmwWrite(old(rf.regs), a, m, enable)]
  {
    var val := rf.Read(a);
    val := Toggle(val, m, enable);
    rf.Write(a, val);
  }

  /**
   * A write of `bits` to a write-1-to-clear status register: the CPU's
   * write is recorded and the switch clears those bits.
   */
  method ClearStatus(rf: RegFile, a: int, bits: bv32)
    modifies rf
    ensures rf.regs == old(rf.regs)[a := BitClear(old(rf.Read(a)), bits)]
    ensures rf.trace == old(rf.trace) + [W(a, bits)]
  {
    var before := rf.Read(a);
    ghost var regs0 := rf.regs;
    rf.Write(a, bits);
    rf.HwSet(a, BitClear(before, bits));
    UpdateSame(regs0, a, bits, BitClear(before, bits));
  }

  /** dma_if_fetch: set or clear the TX-fetch bit of DMA_IF_CTRL. */
  method DmaIfFetch(rf: RegFile, L: Layout, enable: bool)
    modifies rf
    ensures rf.regs == old(rf.regs)[L.dmaIfCtrl := Toggle(old(rf.Read(L.dmaIfCtrl)), L.txFetch, enable)]
    ensures rf.trace == old(rf.trace) + [W(L.dmaIfCtrl, Toggle(old(rf.Read(L.dmaIfCtrl)), L.txFetch, enable))]
  {
    SetBits(rf, L.dmaIfCtrl, L.txFetch, enable);
  }

  /** dma_if_rxtx: set or clear both the TX and RX enable bits of DMA_IF_CTRL. */
  method DmaIfRxtx(rf: RegFile, L: Layout, enable: bool)
    modifies rf
    ensures rf.regs == RmwRegs(old(rf.regs), L.dmaIfCtrl, DmaRxtxBits(L), enable)
    ensures rf.trace == old(rf.trace) + [RmwWrite(old(rf.regs), L.dmaIfCtrl, DmaRxtxBits(L), enable)]
  {
    SetBits(rf, L.dmaIfCtrl, DmaRxtxBits(L), enable);
  }

  /** mac_port_rxtx: set or clear the CPU port's TX/RX enable bits. */
  method MacPortRxtx(rf: RegFile, L: Layout, enable: bool)
    modifies rf
    ensures rf.regs == RmwRegs(old(rf.regs), L.portCtrl, L.txRxEn, enable)
    ensures rf.trace == old(rf.trace) + [RmwWrite(old(rf.regs), L.portCtrl, L.txRxEn, enable)]
  {
    SetBits(rf, L.portCtrl, L.txRxEn, enable);
  }

  /** dma_irq: enable ORs the RX/TX interrupt bits into the mask, disable ANDs the mask with them. */
  method DmaIrq(rf: RegFile, L: Layout, enable: bool)
    modifies rf
    ensures rf.regs == old(rf.regs)[L.intrMsk := DmaIrqValue(old(rf.Read(L.intrMsk)), L, enable)]
    ensures rf.trace == old(rf.trace) + [W(L.intrMsk, DmaIrqValue(old(rf.Read(L.intrMsk)), L, enable))]
  {
    var val := rf.Read(L.intrMsk);
    val := DmaIrqValue(val, L, enable);
    rf.Write(L.intrMsk, val);
  }

  /** dma_rx_ring_cur_get as a value: the hardware pointer of ring r, a ring-set offset. */
  function RxCur(regs: map<int, bv32>, L: Layout, r: RxRing): nat
  {
    Get(regs, L.rxCur[r]) as nat
  }

  /** The ring set after the overflow re-arm of ring 0 and then ring 1, with pointers last0, last1. */
  ghost function CleanupBoth(v: RxState, last0: nat, last1: nat): (t: RxState)
    requires RxWellFormed(v)
    ensures RxWellFormed(t)
  {
    var v1 := RearmAfter(v, 0, CleanupCount(v.words, 0, v.cRx[0], last0, 0));
    RearmAfter(v1, 1, CleanupCount(v1.words, 1, v1.cRx[1], last1, 0))
  }

  /**
   * rtl83xx_rb_cleanup: for each RX ring, read the hardware pointer and
   * re-arm the CPU-owned slots from the cursor up to it.  No register is
   * written.
   */
  method RbCleanup(rf: RegFile, L: Layout, rs: RingSet)
    requires rs.RxShape() && rs.Valid()
    modifies rs, rs.rxR, rs.rxHdr
    ensures rs.Valid()
    ensures rs.View() == CleanupBoth(old(rs.View()), RxCur(rf.regs, L, 0), RxCur(rf.regs, L, 1))
  {
    var r := 0;
    while r < RX_NUM_RINGS
      invariant 0 <= r <= RX_NUM_RINGS && rs.Valid()
      invariant r == 1 ==> (rs.View() ==
        RearmAfter(old(rs.View()), 0, CleanupCount(old(rs.View()).words, 0, old(rs.cRx[0]), RxCur(rf.regs, L, 0), 0)))
      invariant r == 2 ==> rs.View() == CleanupBoth(old(rs.View()), RxCur(rf.regs, L, 0), RxCur(rf.regs, L, 1))
      invariant r == 0 ==> rs.View() == old(rs.View())
    {
      var val := rf.Read(L.rxCur[r]);
      var last := val as nat;
      ghost var n := rs.RearmRing(r, last);
      r := r + 1;
    }
  }

  /** Which event classes an interrupt status shows: TX done (either kind), RX done, RX run-out. */
  datatype Seen = Seen(tx: bool, rx: bool, runOut: bool)

  function SeenOf(status: bv32, L: Layout): Seen
  {
    Seen(AnyOf(status, TxStsBits(L)), AnyOf(status, L.rxDoneSts), AnyOf(status, L.runOutSts))
  }

  /** The mask m, acknowledged when its class was seen. */
  function AckOf(seen: bool, m: bv32): seq<bv32>
  {
    if seen then [m] else []
  }

  /** The status masks the handler acknowledges, in order: a class is acknowledged when the status shows it. */
  function Acks(seen: Seen, L: Layout): seq<bv32>
  {
    AckOf(seen.tx, TxStsBits(L)) + AckOf(seen.rx, L.rxDoneSts) + AckOf(seen.runOut, L.runOutSts)
  }

  /** The interrupt mask after the handler: the RX-done interrupts are masked when RX was done. */
  function IrqMask(mask: bv32, seen: Seen, L: Layout): bv32
  {
    if seen.rx then BitClear(mask, L.rxDoneMsk) else mask
  }

  /** The acknowledging write of mask m to the status register a, when its class was seen. */
  function AckWrite(a: int, seen: bool, m: bv32): seq<Write>
  {
    if seen then [W(a, m)] else []
  }

  /** The writes of the RX-done branch: the new interrupt mask, then the acknowledgement. */
  function RxWrites(seen: Seen, mask: bv32, L: Layout): seq<Write>
  {
    if seen.rx then [W(L.intrMsk, IrqMask(mask, seen, L)), W(L.intrSts, L.rxDoneSts)] else []
  }

  /** The handler's register writes, in order. */
  function IrqWrites(seen: Seen, mask: bv32, L: Layout): seq<Write>
  {
    AckWrite(L.intrSts, seen.tx, TxStsBits(L)) + RxWrites(seen, mask, L) + AckWrite(L.intrSts, seen.runOut, L.runOutSts)
  }

  /**
   * After the handler the status register shows none of the events it
   * acknowledged and keeps every bit it did not acknowledge.
   */
  lemma IrqStatusCleared(status: bv32, L: Layout, i: nat)
    requires i < |Acks(SeenOf(status, L), L)|
    ensures ClearAll(status, Acks(SeenOf(status, L), L)) & Acks(SeenOf(status, L), L)[i] == 0
  {
    AckedAreClear(status, Acks(SeenOf(status, L), L), i);
  }

  lemma IrqStatusKeeps(status: bv32, L: Layout)
    ensures var acks := Acks(SeenOf(status, L), L);
            ClearAll(status, acks) & !Union(acks) == status & !Union(acks)
  {
    AckKeepsOthers(status, Acks(SeenOf(status, L), L));
  }

  /** Every class the status shows is acknowledged. */
  lemma IrqAcksSeen(seen: Seen, L: Layout)
    ensures seen.tx ==> TxStsBits(L) in Acks(seen, L)
    ensures seen.rx ==> L.rxDoneSts in Acks(seen, L)
    ensures seen.runOut ==> L.runOutSts in Acks(seen, L)
  {
  }

  /** Masking RX done turns every RX-done interrupt off and keeps the rest of the mask. */
  lemma IrqMaskRxDone(mask: bv32, seen: Seen, L: Layout)
    ensures seen.rx ==> IrqMask(mask, seen, L) & L.rxDoneMsk == 0
  {
    ClearFacts(mask, L.rxDoneMsk);
  }

  /**
   * The interrupt registers part-way through the handler: the mask holds
   * m and the status register v with the acknowledgements acks applied;
   * every other register is as in base.
   */
  predicate IrqRegs(regs: map<int, bv32>, L: Layout, base: map<int, bv32>, m: bv32, v: bv32, acks: seq<bv32>)
  {
    regs == base[L.intrMsk := m][L.intrSts := ClearAll(v, acks)]
  }

  /**
   * Acknowledge the status bits m when the status showed one of them
   * (seen): the write is recorded and the hardware clears the bits.
   */
  method AckIfSeen(rf: RegFile, L: Layout, seen: bool, m: bv32,
                   ghost base: map<int, bv32>, ghost mask: bv32, ghost v: bv32, ghost acks: seq<bv32>)
    returns (ghost acks': seq<bv32>)
    requires IrqRegs(rf.regs, L, base, mask, v, acks)
    modifies rf
    ensures acks' == acks + AckOf(seen, m)
    ensures IrqRegs(rf.regs, L, base, mask, v, acks')
    ensures rf.trace == old(rf.trace) + AckWrite(L.intrSts, seen, m)
  {
    acks' := acks;
    if seen {
      ClearAllSnoc(v, acks, m);
      ClearStatus(rf, L.intrSts, m);
      UpdateSame(base[L.intrMsk := mask], L.intrSts, ClearAll(v, acks), ClearAll(v, acks + [m]));
      acks' := acks + [m];
    }
  }

  /** On RX done, mask the RX-done interrupts and acknowledge them. */
  method AckRxDone(rf: RegFile, L: Layout, seen: Seen,
                   ghost base: map<int, bv32>, ghost mask: bv32, ghost v: bv32, ghost acks: seq<bv32>)
    returns (ghost acks': seq<bv32>)
    requires L.intrMsk != L.intrSts && IrqRegs(rf.regs, L, base, mask, v, acks)
    modifies rf
    ensures acks' == acks + AckOf(seen.rx, L.rxDoneSts)
    ensures IrqRegs(rf.regs, L, base, IrqMask(mask, seen, L), v, acks')
    ensures rf.trace == old(rf.trace) + RxWrites(seen, mask, L)
  {
    acks' := acks;
    if seen.rx {
      var val := rf.Read(L.intrMsk);
      val := BitClear(val, L.rxDoneMsk);
      rf.Write(L.intrMsk, val);
      UpdateTwice(base, L.intrMsk, L.intrSts, mask, ClearAll(v, acks), val);
      ClearAllSnoc(v, acks, L.rxDoneSts);
      ClearStatus(rf, L.intrSts, L.rxDoneSts);
      UpdateSame(base[L.intrMsk := val], L.intrSts, ClearAll(v, acks), ClearAll(v, acks + [L.rxDoneSts]));
      acks' := acks + [L.rxDoneSts];
    }
  }

  /**
   * The acknowledgements and the RX-done masking of nic_irq_handler, in
   * the order the handler makes them, for a status v showing seen.
   */
  method AckIrqs(rf: RegFile, L: Layout, seen: Seen, ghost v: bv32)
    // The mask and status registers are present in the register map: a
    // register not in the map reads 0, and the map update in the ensures
    // would otherwise add an entry the handler never wrote.  The source has
    // no such condition; it is a property of the map representation only.
    requires IntrRegsApart(L) && L.intrSts in rf.regs && L.intrMsk in rf.regs
    requires rf.Read(L.intrSts) == v
    modifies rf
    ensures rf.regs == old(rf.regs)[L.intrMsk := IrqMask(old(rf.Read(L.intrMsk)), seen, L)]
                                   [L.intrSts := ClearAll(v, Acks(seen, L))]
    ensures rf.trace == old(rf.trace) + IrqWrites(seen, old(rf.Read(L.intrMsk)), L)
  {
    ghost var base, trace0, mask := rf.regs, rf.trace, rf.Read(L.intrMsk);
    UpdateUnchanged(base, L.intrMsk);
    UpdateUnchanged(base, L.intrSts);
    assert IrqRegs(rf.regs, L, base, mask, v, []);
    ghost var acks := AckIfSeen(rf, L, seen.tx, TxStsBits(L), base, mask, v, []);
    assert acks == AckOf(seen.tx, TxStsBits(L));
    acks := AckRxDone(rf, L, seen, base, mask, v, acks);
    acks := AckIfSeen(rf, L, seen.runOut, L.runOutSts, base, IrqMask(mask, seen, L), v, acks);
    assert acks == Acks(seen, L);
    AppendThree(trace0, AckWrite(L.intrSts, seen.tx, TxStsBits(L)), RxWrites(seen, mask, L),
                AckWrite(L.intrSts, seen.runOut, L.runOutSts));
  }

  /**
   * nic_irq_handler: read the status once; acknowledge the TX-done bits if
   * any is set; on RX done, mask the RX-done interrupts, acknowledge them
   * and schedule the poll (the result); on RX run-out, acknowledge it and
   * re-arm the rings.
   */
  method NicIrqHandler(rf: RegFile, L: Layout, rs: RingSet) returns (schedule: bool)
    // Register presence, as for AckIrqs: a condition of the map representation, not of the source.
    requires IntrRegsApart(L) && L.intrSts in rf.regs && L.intrMsk in rf.regs
    requires rs.RxShape() && rs.Valid()
    modifies rf, rs, rs.rxR, rs.rxHdr
    ensures rs.Valid()
    ensures var seen := SeenOf(old(rf.Read(L.intrSts)), L);
      && schedule == seen.rx
      && rf.regs == old(rf.regs)[L.intrMsk := IrqMask(old(rf.Read(L.intrMsk)), seen, L)]
                                [L.intrSts := ClearAll(old(rf.Read(L.intrSts)), Acks(seen, L))]
      && rf.trace == old(rf.trace) + IrqWrites(seen, old(rf.Read(L.intrMsk)), L)
      && rs.View() == (if seen.runOut
                       then CleanupBoth(old(rs.View()), RxCur(old(rf.regs), L, 0), RxCur(old(rf.regs), L, 1))
                       else old(rs.View()))
  {
    var status := rf.Read(L.intrSts);
    var seen := Seen(AnyOf(status, TxStsBits(L)), AnyOf(status, L.rxDoneSts), AnyOf(status, L.runOutSts));
    AckIrqs(rf, L, seen, status);
    schedule := seen.rx;
    if seen.runOut {
      assert RxCur(rf.regs, L, 0) == RxCur(old(rf.regs), L, 0);
      assert RxCur(rf.regs, L, 1) == RxCur(old(rf.regs), L, 1);
      RbCleanup(rf, L, rs);
    }
  }
}
