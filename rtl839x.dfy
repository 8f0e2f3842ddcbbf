/*
 * The RTL839x side of the CPU-port driver (rtl839x-eth.c): the
 * multicast port-mask entry init_mac installs, the MAC-address register
 * pair, the CPU-port force mode and the reset, enable and stop sequences.
 * The operations the two families share are in the Soc and Control
 * modules.
 */
module Rtl839x {
  import opened Mmio
  import opened Bits
  import opened EthDefs
  import opened Tables
  import opened Soc
  import opened Control

  // ---------------------------------------------------------------------
  // The MC_PMSK entry of table L2, subtable 2, address 0

  /** A port of an RTL839x switch: 0 .. 51 and the CPU port 52. */
  type Port839 = p: nat | p <= 52

  /**
   * Where a port sits in an MC_PMSK entry: ports 0 .. 20 in bits 11 .. 31
   * of word 1, ports 21 .. 52 in bits 0 .. 31 of word 0, so that the CPU
   * port is bit 31 of word 0.
   */
  function PmskWord(p: Port839): nat
  {
    if p < 21 then 1 else 0
  }

  function PmskBit(p: Port839): bv32
  {
    if p < 21 then (11 + p) as bv32 else (p - 21) as bv32
  }

  /** Whether port p is a member of the port mask row. */
  predicate InPmsk(row: Row, p: Port839)
  {
    BitIsSet(row[PmskWord(p)], PmskBit(p))
  }

  /** Whether bit k of w is set. */
  predicate BitIsSet(w: bv32, k: bv32)
    requires k < 32
  {
    (w >> k) & 1 == 1
  }

  /** The default entry rtl839x_init_mac writes: every port but the CPU port. */
  const PMSK_DEFAULT: Row := [0x7FFFFFFF, 0xFFFFF800, 0]

  /** The default entry holds exactly the ports other than the CPU port. */
  lemma DefaultPmskPorts(p: Port839)
    ensures InPmsk(PMSK_DEFAULT, p) <==> p != CPU_PORT_839X
  {
    if p < 21 {
      DefaultWord1(p);
    } else {
      DefaultWord0(p);
    }
  }

  lemma DefaultWord1(p: Port839)
    requires p < 21
    ensures InPmsk(PMSK_DEFAULT, p)
  {
    ghost var k := PmskBit(p);
    assert PmskWord(p) == 1 && 11 <= k < 32;
    HighWordBits(k);
  }

  lemma DefaultWord0(p: Port839)
    requires 21 <= p
    ensures InPmsk(PMSK_DEFAULT, p) <==> p != CPU_PORT_839X
  {
    ghost var k := PmskBit(p);
    assert PmskWord(p) == 0 && k < 32 && (k == 31 <==> p == 52);
    LowWordBits(k);
  }

  lemma HighWordBits(k: bv32)
    requires 11 <= k < 32
    ensures ((0xFFFFF800 as bv32) >> k) & 1 == 1
  {
  }

  lemma LowWordBits(k: bv32)
    requires k < 32
    ensures ((0x7FFFFFFF as bv32) >> k) & 1 == 1 <==> k != 31
  {
  }

  /** enable_rxtx's change to the entry: bit 31 of word 0 is or-ed in. */
  function FloodCpu(row: Row): Row
  {
    row[0 := row[0] | 0x80000000]
  }

  /** That change adds the CPU port and keeps every other port's membership. */
  lemma FloodAddsCpu(row: Row, p: Port839)
    ensures InPmsk(FloodCpu(row), p) <==> p == CPU_PORT_839X || InPmsk(row, p)
  {
    if p < 21 {
      FloodKeepsWord1(row, p);
    } else if p == 52 {
      FloodSetsCpu(row);
    } else {
      FloodKeepsWord0(row, p);
    }
  }

  lemma FloodKeepsWord1(row: Row, p: Port839)
    requires p < 21
    ensures InPmsk(FloodCpu(row), p) == InPmsk(row, p)
  {
    assert FloodCpu(row)[PmskWord(p)] == row[PmskWord(p)];
  }

  lemma FloodSetsCpu(row: Row)
    ensures InPmsk(FloodCpu(row), 52)
  {
    assert PmskWord(52) == 0 && PmskBit(52) == 31;
    TopBitSet(row[0]);
  }

  lemma FloodKeepsWord0(row: Row, p: Port839)
    requires 21 <= p < 52
    ensures InPmsk(FloodCpu(row), p) == InPmsk(row, p)
  {
    ghost var k := PmskBit(p);
    assert PmskWord(p) == 0 && k < 31;
    LowerBitsKept(row[0], k);
  }

  lemma TopBitSet(x: bv32)
    ensures ((x | 0x80000000) >> 31) & 1 == 1
  {
  }

  lemma LowerBitsKept(x: bv32, k: bv32)
    requires k < 31
    ensures ((x | 0x80000000) >> k) & 1 == (x >> k) & 1
  {
  }

  // ---------------------------------------------------------------------
  // rtl839x_init_mac

  /** The table parameters of RTL839X_TBL_L2, which holds the MC_PMSK entries. */
  function L2Params(L: Layout): TableParams
  {
    Params(RTL839X_TBL_L2, L.tables)
  }

  /** The table write of rtl839x_init_mac and its effect. */
  function InitEffect(h: HwState, L: Layout): HwState
  {
    WriteEffect(h, L2Params(L), 2, 0, PMSK_DEFAULT)
  }

  /**
   * rtl839x_init_mac: install the default MC_PMSK entry.  The constant
   * tuning writes before and after it are not modelled.
   */
  method InitMac(rf: RegFile, hw: TableHw, L: Layout)
    modifies rf, hw
    ensures HwState(rf.regs, hw.mem) == InitEffect(HwState(old(rf.regs), old(hw.mem)), L)
    ensures rf.trace == old(rf.trace) + WriteWrites(L2Params(L), 2, 0, PMSK_DEFAULT)
  {
    var data: Row := [0x7FFFFFFF, 0xFFFFF800, 0];
    TableWrite(rf, hw, RTL839X_TBL_L2, L.tables, 2, 0, data);
  }

  // ---------------------------------------------------------------------
  // rtl839x_set_mac_addr

  /** The two writes to MAC_ADDR and MAC_ADDR + 4, high word first. */
  function MacWrites(L: Layout, mac: MacAddr): seq<Write>
  {
    [W(L.macAddr, MacHi(mac)), W(L.macAddr + 4, MacLo(mac))]
  }

  /** The registers after those writes. */
  function MacRegs(m: map<int, bv32>, L: Layout, mac: MacAddr): map<int, bv32>
  {
    m[L.macAddr := MacHi(mac)][L.macAddr + 4 := MacLo(mac)]
  }

  /** rtl839x_set_mac_addr. */
  method SetMacAddr(rf: RegFile, L: Layout, mac: MacAddr)
    modifies rf
    ensures rf.trace == old(rf.trace) + MacWrites(L, mac)
    ensures rf.regs == MacRegs(old(rf.regs), L, mac)
  {
    rf.Write(L.macAddr, ((mac[0] as bv32) << 8) | mac[1] as bv32);
    rf.Write(L.macAddr + 4, ((mac[2] as bv32) << 24) | ((mac[3] as bv32) << 16) | ((mac[4] as bv32) << 8) | mac[5] as bv32);
  }

  /** Afterwards the register pair reads back as the address set. */
  lemma SetMacReadsBack(m: map<int, bv32>, L: Layout, mac: MacAddr)
    ensures var r := MacRegs(m, L, mac);
      MacOf(Get(r, L.macAddr), Get(r, L.macAddr + 4)) == mac
  {
    MacRoundTrip(mac);
  }

  // ---------------------------------------------------------------------
  // mac_force_mode

  /**
   * mac_force_mode: set or clear FORCE_LINK_EN | MAC_FORCE_EN (forceOn);
   * unlike the RTL838x, disabling clears the same bits enabling sets.
   */
  method MacForceMode(rf: RegFile, L: Layout, enable: bool)
    modifies rf
    ensures rf.regs == RmwRegs(old(rf.regs), L.forceModeCtrl, L.forceOn, enable)
    ensures rf.trace == old(rf.trace) + [RmwWrite(old(rf.regs), L.forceModeCtrl, L.forceOn, enable)]
  {
    SetBits(rf, L.forceModeCtrl, L.forceOn, enable);
  }

  /** Enabling and then disabling drops the forced link and restores every other bit. */
  lemma ForceDisableDropsLink(v: bv32, L: Layout)
    ensures Toggle(Toggle(v, L.forceOn, true), L.forceOn, false) & L.forceOn == 0
    ensures Toggle(Toggle(v, L.forceOn, true), L.forceOn, false) & !L.forceOn == v & !L.forceOn
  {
    var u := Toggle(v, L.forceOn, true);
    ToggleSets(u, L.forceOn, false);
    ToggleKeeps(u, L.forceOn, false);
    ToggleKeeps(v, L.forceOn, true);
  }

  // ---------------------------------------------------------------------
  // reset

  /** The notify bits of an interrupt mask value, which reset saves across the NIC reset. */
  function NotifyBits(v: bv32, L: Layout): bv32
  {
    v & L.notifyMask
  }

  /** The restore step of reset: the notify bits of v replaced by the saved ones. */
  function RestoreNotify(v: bv32, mask: bv32, saved: bv32): bv32
  {
    (v & !mask) | saved
  }

  /** The restored mask holds the notify bits as saved and the other bits as the reset left them. */
  lemma NotifyRestored(before: bv32, after: bv32, L: Layout)
    ensures RestoreNotify(after, L.notifyMask, NotifyBits(before, L)) & L.notifyMask == NotifyBits(before, L)
    ensures RestoreNotify(after, L.notifyMask, NotifyBits(before, L)) & !L.notifyMask == after & !L.notifyMask
  {
  }

  /**
   * The registers and the CPU writes of reset: stop the port, save the
   * notify bits of the interrupt mask, reset the NIC (which leaves
   * maskAfter in the mask), write the saved notify bits back, restart
   * the port, force the link up, then mask all DMA interrupts and clear
   * every status bit.
   */
  function ResetEffect(m: map<int, bv32>, L: Layout, maskAfter: bv32): (map<int, bv32>, seq<Write>)
  {
    var m1 := RmwRegs(m, L.portCtrl, L.txRxEn, false);
    var restored := RestoreNotify(maskAfter, L.notifyMask, NotifyBits(Get(m1, L.intrMsk), L));
    var m2 := m1[L.rstGlbCtrl := ResetDone(L)][L.intrMsk := restored];
    var m3 := RmwRegs(m2, L.portCtrl, L.txRxEn, true);
    var m4 := RmwRegs(m3, L.forceModeCtrl, L.forceOn, true);
    (QuietRegs(m4, L, 0xffffffff),
     [RmwWrite(m, L.portCtrl, L.txRxEn, false), W(L.rstGlbCtrl, L.nicRst), W(L.intrMsk, restored),
      RmwWrite(m2, L.portCtrl, L.txRxEn, true), RmwWrite(m3, L.forceModeCtrl, L.forceOn, true),
      W(L.intrMsk, 0), W(L.intrSts, 0xffffffff)])
  }

  /** reset. */
  method Reset(rf: RegFile, L: Layout, maskAfter: bv32)
    modifies rf
    ensures rf.regs == ResetEffect(old(rf.regs), L, maskAfter).0
    ensures rf.trace == old(rf.trace) + ResetEffect(old(rf.regs), L, maskAfter).1
  {
    ghost var m, t0 := rf.regs, rf.trace;
    MacPortRxtx(rf, L, false);
    ghost var m1, w1 := rf.regs, RmwWrite(m, L.portCtrl, L.txRxEn, false);
    var notifySaved := NotifyBits(rf.Read(L.intrMsk), L);
    assert notifySaved == NotifyBits(Get(m1, L.intrMsk), L);
    NicReset(rf, L, maskAfter);
    var val := rf.Read(L.intrMsk);
    assert val == maskAfter;
    val := RestoreNotify(val, L.notifyMask, notifySaved);
    rf.Write(L.intrMsk, val);
    UpdateSame(m1[L.rstGlbCtrl := ResetDone(L)], L.intrMsk, maskAfter, val);
    ghost var m2 := rf.regs;
    assert m2 == m1[L.rstGlbCtrl := ResetDone(L)][L.intrMsk := val];
    assert rf.trace == t0 + [w1, W(L.rstGlbCtrl, L.nicRst), W(L.intrMsk, val)];
    MacPortRxtx(rf, L, true);
    ghost var m3, w4 := rf.regs, RmwWrite(m2, L.portCtrl, L.txRxEn, true);
    assert rf.trace == t0 + [w1, W(L.rstGlbCtrl, L.nicRst), W(L.intrMsk, val), w4];
    MacForceMode(rf, L, true);
    assert rf.trace == t0 + [w1, W(L.rstGlbCtrl, L.nicRst), W(L.intrMsk, val), w4,
                             RmwWrite(m3, L.forceModeCtrl, L.forceOn, true)];
    Quiesce(rf, L, 0xffffffff);
  }

  /**
   * The third write of reset goes to the interrupt mask and merges the
   * notify bits read before the NIC reset into the mask the reset left;
   * NotifyRestored says what that merge keeps.
   */
  lemma ResetRestoresNotify(m: map<int, bv32>, L: Layout, maskAfter: bv32)
    requires L.portCtrl != L.intrMsk
    ensures ResetEffect(m, L, maskAfter).1[2] ==
      W(L.intrMsk, RestoreNotify(maskAfter, L.notifyMask, NotifyBits(Get(m, L.intrMsk), L)))
  {
    assert Get(RmwRegs(m, L.portCtrl, L.txRxEn, false), L.intrMsk) == Get(m, L.intrMsk);
  }

  /**
   * After reset the NIC reset has completed, the CPU port is enabled with
   * its link forced up, and every DMA interrupt is masked with the status
   * clear: the restored notify bits do not survive the final write of 0.
   */
  lemma ResetOutcome(m: map<int, bv32>, L: Layout, maskAfter: bv32)
    requires CtrlRegsApart(L)
    ensures var r := ResetEffect(m, L, maskAfter).0;
      Get(r, L.intrMsk) == 0 && Get(r, L.intrSts) == 0 &&
      Get(r, L.portCtrl) & L.txRxEn == L.txRxEn &&
      Get(r, L.forceModeCtrl) & L.forceOn == L.forceOn &&
      Get(r, L.rstGlbCtrl) & L.nicRst == 0
  {
    var m1 := RmwRegs(m, L.portCtrl, L.txRxEn, false);
    var restored := RestoreNotify(maskAfter, L.notifyMask, NotifyBits(Get(m1, L.intrMsk), L));
    var m2 := m1[L.rstGlbCtrl := ResetDone(L)][L.intrMsk := restored];
    var m3 := RmwRegs(m2, L.portCtrl, L.txRxEn, true);
    var m4 := RmwRegs(m3, L.forceModeCtrl, L.forceOn, true);
    QuietMasks(m4, L, 0xffffffff);
    ToggleSets(Get(m2, L.portCtrl), L.txRxEn, true);
    ToggleSets(Get(m3, L.forceModeCtrl), L.forceOn, true);
    ClearFacts(L.nicRst, L.nicRst);
    AllCleared(Get(m4[L.intrMsk := 0], L.intrSts));
  }

  // ---------------------------------------------------------------------
  // enable_rxtx

  /**
   * The state and the CPU writes of enable_rxtx: the steps shared with
   * the RTL838x, then a read of the MC_PMSK entry and a write of it back
   * with the CPU port added.
   */
  function EnableEffect(h: HwState, L: Layout): (HwState, seq<Write>)
  {
    var p := L2Params(L);
    var h1 := ReadEffect(HwState(EnableRegs(h.regs, L), h.mem), p, 2, 0);
    var row := FloodCpu(DataRow(h1.regs, p));
    (WriteEffect(h1, p, 2, 0, row),
     EnableWrites(h.regs, L) + [W(p.ctrlReg, ReadCmd(p, 2, 0))] + WriteWrites(p, 2, 0, row))
  }

  /** enable_rxtx. */
  method EnableRxtx(rf: RegFile, hw: TableHw, L: Layout)
    modifies rf, hw
    ensures HwState(rf.regs, hw.mem) == EnableEffect(HwState(old(rf.regs), old(hw.mem)), L).0
    ensures rf.trace == old(rf.trace) + EnableEffect(HwState(old(rf.regs), old(hw.mem)), L).1
  {
    ghost var m0, t0 := rf.regs, rf.trace;
    rf.Write(L.rxRingSize[0], 0xffffffff);
    rf.Write(L.intrMsk, 0xfffff);
    ghost var m1 := rf.regs;
    assert rf.trace == t0 + [W(L.rxRingSize[0], 0xffffffff), W(L.intrMsk, 0xfffff)];
    DmaIfRxtx(rf, L, true);
    assert rf.regs == RmwRegs(m1, L.dmaIfCtrl, DmaRxtxBits(L), true);
    assert rf.trace == t0 + EnableWrites(m0, L);
    ghost var p := L2Params(L);
    ghost var h1 := ReadEffect(HwState(EnableRegs(m0, L), old(hw.mem)), p, 2, 0);
    var pmsk := TableRead(rf, hw, RTL839X_TBL_L2, L.tables, 2, 0);
    assert HwState(rf.regs, hw.mem) == h1;
    ghost var t1 := rf.trace;
    assert t1 == t0 + EnableWrites(m0, L) + [W(p.ctrlReg, ReadCmd(p, 2, 0))];
    pmsk := FloodCpu(pmsk);
    TableWrite(rf, hw, RTL839X_TBL_L2, L.tables, 2, 0, pmsk);
    ghost var ws := WriteWrites(p, 2, 0, FloodCpu(DataRow(h1.regs, p)));
    assert rf.trace == t1 + ws;
    assert EnableEffect(HwState(m0, old(hw.mem)), L).1 == EnableWrites(m0, L) + [W(p.ctrlReg, ReadCmd(p, 2, 0))] + ws;
    AppendThree(t0, EnableWrites(m0, L), [W(p.ctrlReg, ReadCmd(p, 2, 0))], ws);
  }

  /** What a read of the MC_PMSK entry returns in state h. */
  function PmskRead(h: HwState, L: Layout): Row
  {
    DataRow(ReadEffect(h, L2Params(L), 2, 0).regs, L2Params(L))
  }

  /**
   * After enable_rxtx the entry holds the CPU port and, for every other
   * port, what it held before.
   */
  lemma EnableFloodsCpu(h: HwState, L: Layout, p: Port839)
    requires Separate(L2Params(L))
    ensures InPmsk(PmskRead(EnableEffect(h, L).0, L), p) <==> p == CPU_PORT_839X || InPmsk(PmskRead(h, L), p)
  {
    var P := L2Params(L);
    var h1 := ReadEffect(HwState(EnableRegs(h.regs, L), h.mem), P, 2, 0);
    ReadSeesTable(HwState(EnableRegs(h.regs, L), h.mem), h, RTL839X_TBL_L2, L.tables, 2, 0);
    var row := FloodCpu(DataRow(h1.regs, P));
    ReadAfterWrite(h1, EnableEffect(h, L).0, RTL839X_TBL_L2, L.tables, 2, 0, row);
    FloodAddsCpu(PmskRead(h, L), p);
  }

  /**
   * init_mac followed, after any register changes that leave the tables
   * alone, by enable_rxtx floods traffic to every port, the CPU port included.
   */
  lemma InitThenEnableFloodsAll(h0: HwState, h: HwState, L: Layout, p: Port839)
    requires Separate(L2Params(L))
    requires h.mem == InitEffect(h0, L).mem
    ensures InPmsk(PmskRead(EnableEffect(h, L).0, L), p)
  {
    ReadAfterWrite(h0, h, RTL839X_TBL_L2, L.tables, 2, 0, PMSK_DEFAULT);
    DefaultPmskPorts(p);
    EnableFloodsCpu(h, L, p);
  }

  // ---------------------------------------------------------------------
  // stop

  /**
   * The registers and the CPU writes of stop: flush the L2 entries of
   * every port below the CPU port, drop the forced link, disable DMA, mask
   * every DMA interrupt and clear the twenty RX/TX status bits.
   */
  function StopEffect(m: map<int, bv32>, L: Layout, cpuPort: Port): (map<int, bv32>, seq<Write>)
  {
    var m1 := FlushRegs(m, L, cpuPort);
    var m2 := RmwRegs(m1, L.forceModeCtrl, L.forceOn, false);
    var m3 := RmwRegs(m2, L.dmaIfCtrl, DmaRxtxBits(L), false);
    (QuietRegs(m3, L, 0x000fffff),
     FlushWrites(L, cpuPort) +
     [RmwWrite(m1, L.forceModeCtrl, L.forceOn, false), RmwWrite(m2, L.dmaIfCtrl, DmaRxtxBits(L), false),
      W(L.intrMsk, 0), W(L.intrSts, 0x000fffff)])
  }

  /** stop. */
  method Stop(rf: RegFile, L: Layout, cpuPort: Port)
    modifies rf
    ensures rf.regs == StopEffect(old(rf.regs), L, cpuPort).0
    ensures rf.trace == old(rf.trace) + StopEffect(old(rf.regs), L, cpuPort).1
  {
    ghost var t0 := rf.trace;
    L2FlushPorts(rf, L, cpuPort);
    ghost var m1 := rf.regs;
    MacForceMode(rf, L, false);
    ghost var m2 := rf.regs;
    DmaIfRxtx(rf, L, false);
    assert rf.trace == t0 + FlushWrites(L, cpuPort) +
      [RmwWrite(m1, L.forceModeCtrl, L.forceOn, false), RmwWrite(m2, L.dmaIfCtrl, DmaRxtxBits(L), false)];
    Quiesce(rf, L, 0x000fffff);
  }

  /**
   * After stop DMA is off in both directions, the CPU port's link is no
   * longer forced, every DMA interrupt is masked and the RX/TX status bits
   * are clear.
   */
  lemma StopOutcome(m: map<int, bv32>, L: Layout, cpuPort: Port)
    requires CtrlRegsApart(L)
    ensures var r := StopEffect(m, L, cpuPort).0;
      Get(r, L.intrMsk) == 0 && Get(r, L.intrSts) & 0x000fffff == 0 &&
      Get(r, L.dmaIfCtrl) & DmaRxtxBits(L) == 0 &&
      Get(r, L.forceModeCtrl) & L.forceOn == 0
  {
    var m1 := FlushRegs(m, L, cpuPort);
    var m2 := RmwRegs(m1, L.forceModeCtrl, L.forceOn, false);
    var m3 := RmwRegs(m2, L.dmaIfCtrl, DmaRxtxBits(L), false);
    QuietMasks(m3, L, 0x000fffff);
    ToggleSets(Get(m2, L.dmaIfCtrl), DmaRxtxBits(L), false);
    ToggleSets(Get(m1, L.forceModeCtrl), L.forceOn, false);
  }
}
