/*
 * The RTL838x side of the CPU-port driver (rtl838x-eth.c): the bounded
 * SMI wait, the MAC initialisation (EEE timers and congestion timers),
 * the MAC-address registers, the CPU-port force mode and the reset,
 * enable and stop sequences.  The operations the two families share
 * (dma_irq, the interrupt handler, the overflow re-arm, dma_if_rxtx,
 * mac_port_rxtx) are in the Soc module.
 */
module Rtl838x {
  import opened Mmio
  import opened Bits
  import opened EthDefs
  import opened Tables
  import opened Soc
  import opened Control

  // ---------------------------------------------------------------------
  // rtl838x_smi_wait_op

  /**
   * The number of polls of the SMI busy bit when t is the timeout left
   * before poll k and busy(k) is what poll k reads: each poll first
   * decrements the timeout, and polling goes on while the bit is set and
   * the timeout has not gone negative.
   */
  function Polls(t: int, busy: nat -> bool, k: nat): (n: nat)
    ensures n >= 1
    decreases if t > 0 then t else 0
  {
    if busy(k) && t - 1 >= 0 then 1 + Polls(t - 1, busy, k + 1) else 1
  }

  /** What rtl838x_smi_wait_op returns: -1 when the timeout ends at or below zero, else 0. */
  function SmiWaitResult(timeout: int, busy: nat -> bool): int
  {
    if timeout - Polls(timeout, busy, 0) <= 0 then -1 else 0
  }

  /**
   * rtl838x_smi_wait_op: decrement the timeout once per poll of the busy
   * bit (busy(k) is the bit at poll k) and fail when it has run out.
   */
  method SmiWaitOp(timeout: int, busy: nat -> bool) returns (res: int, polls: nat)
    ensures polls == Polls(timeout, busy, 0)
    ensures res == SmiWaitResult(timeout, busy)
  {
    var t := timeout;
    var k: nat := 0;
    t := t - 1;
    while busy(k) && t >= 0
      invariant t == timeout - (k + 1)
      invariant Polls(timeout, busy, 0) == k + Polls(t + 1, busy, k)
      decreases t + 1
    {
      t := t - 1;
      k := k + 1;
    }
    polls := k + 1;
    if t <= 0 {
      return -1, polls;
    }
    return 0, polls;
  }

  function Min(a: int, b: int): int { if a <= b then a else b }
  function Max(a: int, b: int): int { if a >= b then a else b }

  /**
   * When the busy bit first reads clear at poll c, polling from poll k
   * with t left stops after the clear poll or once the timeout runs out,
   * whichever comes first.
   */
  lemma {:induction false} PollsFirstClear(t: int, busy: nat -> bool, k: nat, c: nat)
    requires k <= c && !busy(c)
    requires forall j :: k <= j < c ==> busy(j)
    ensures Polls(t, busy, k) == Min(c - k, Max(t, 0)) + 1
    decreases c - k
  {
    if k < c && t - 1 >= 0 {
      PollsFirstClear(t - 1, busy, k + 1, c);
    }
  }

  /** While the bit stays set, polling from poll k with t left polls t + 1 times. */
  lemma {:induction false} PollsStuck(t: int, busy: nat -> bool, k: nat)
    requires forall j :: k <= j ==> busy(j)
    ensures Polls(t, busy, k) == Max(t, 0) + 1
    decreases if t > 0 then t else 0
  {
    if t - 1 >= 0 {
      PollsStuck(t - 1, busy, k + 1);
    }
  }

  /**
   * The wait succeeds exactly when the busy bit first reads clear at a
   * poll c with c + 1 < timeout.  A bit that clears on the last poll the
   * timeout allows (c + 1 == timeout) still gives -1.
   */
  lemma SmiWaitSucceeds(timeout: int, busy: nat -> bool, c: nat)
    requires !busy(c) && forall j :: 0 <= j < c ==> busy(j)
    ensures SmiWaitResult(timeout, busy) == 0 <==> c + 1 < timeout
  {
    PollsFirstClear(timeout, busy, 0, c);
  }

  /** A bit that never clears gives -1 after timeout + 1 polls (one poll for a timeout at or below zero). */
  lemma SmiWaitStuck(timeout: int, busy: nat -> bool)
    requires forall j :: busy(j)
    ensures Polls(timeout, busy, 0) == Max(timeout, 0) + 1
    ensures SmiWaitResult(timeout, busy) == -1
  {
    PollsStuck(timeout, busy, 0);
  }

  // ---------------------------------------------------------------------
  // rtl838x_init_mac

  /** Zero writes to the congestion-timer registers of ports lo .. hi-1, 0x80 apart from base. */
  function TimerWrites(base: int, lo: nat, hi: nat): seq<Write>
    requires lo <= hi
  {
    seq(hi - lo, j requires 0 <= j < hi - lo => W(base + (lo + j) * 0x80, 0))
  }

  /** init_congestion_timers: ports 0..28 on the RTL8382, ports 8..28 on the RTL8380, none otherwise. */
  function CongestionWrites(base: int, socId: int): seq<Write>
  {
    if socId == 0x8382 then TimerWrites(base, 0, 29)
    else if socId == 0x8380 then TimerWrites(base, 8, 29)
    else []
  }

  /**
   * The congestion timer of port i (0..28) is zeroed exactly when the SoC
   * is an RTL8382, or an RTL8380 and i >= 8; every write is a zero.
   */
  lemma CongestionCovers(base: int, socId: int, i: int)
    requires 0 <= i <= 28
    ensures W(base + i * 0x80, 0) in CongestionWrites(base, socId) <==>
            (socId == 0x8382 || (socId == 0x8380 && i >= 8))
    ensures forall w :: w in CongestionWrites(base, socId) ==> w.val == 0
  {
    var ws := CongestionWrites(base, socId);
    if socId == 0x8382 {
      assert ws[i] == W(base + i * 0x80, 0);
    } else if socId == 0x8380 {
      if i >= 8 {
        assert ws[i - 8] == W(base + i * 0x80, 0);
      } else {
        forall j | 0 <= j < |ws|
          ensures ws[j] != W(base + i * 0x80, 0)
        {
          assert ws[j].addr == base + (8 + j) * 0x80;
        }
      }
    }
  }

  /** Zero the congestion timers of ports lo .. 28. */
  method ZeroTimers(rf: RegFile, base: int, lo: nat)
    requires lo <= 29
    modifies rf
    ensures rf.trace == old(rf.trace) + TimerWrites(base, lo, 29)
    ensures rf.regs == Apply(old(rf.regs), TimerWrites(base, lo, 29))
  {
    var i := lo;
    while i <= 28
      invariant lo <= i <= 29
      invariant rf.trace == old(rf.trace) + TimerWrites(base, lo, i)
      invariant rf.regs == Apply(old(rf.regs), TimerWrites(base, lo, i))
    {
      rf.Write(base + i * 0x80, 0);
      assert TimerWrites(base, lo, i + 1) == TimerWrites(base, lo, i) + [W(base + i * 0x80, 0)];
      ApplySnoc(old(rf.regs), TimerWrites(base, lo, i), W(base + i * 0x80, 0));
      i := i + 1;
    }
  }

  /** init_congestion_timers. */
  method InitCongestionTimers(rf: RegFile, L: Layout, socId: int)
    modifies rf
    ensures rf.trace == old(rf.trace) + CongestionWrites(L.cngstEn, socId)
    ensures rf.regs == Apply(old(rf.regs), CongestionWrites(L.cngstEn, socId))
  {
    if socId == 0x8382 {
      ZeroTimers(rf, L.cngstEn, 0);
    } else if socId == 0x8380 {
      ZeroTimers(rf, L.cngstEn, 8);
    } else {
      assert rf.trace == old(rf.trace) + [];
    }
  }

  /** set_eee_tx_timers' word: pause-wake from bit 24, delay from bit 12, wake in the low bits. */
  function EeeWord(pauseWake: bv8, delay: bv16, wake: bv8): bv32
  {
    ((pauseWake as bv32) << 24) | ((delay as bv32) << 12) | wake as bv32
  }

  /** With a delay below 0x1000 the three timers occupy separate fields and read back unchanged. */
  lemma EeeWordFields(pauseWake: bv8, delay: bv16, wake: bv8)
    requires delay < 0x1000
    ensures EeeWord(pauseWake, delay, wake) >> 24 == pauseWake as bv32
    ensures (EeeWord(pauseWake, delay, wake) >> 12) & 0xfff == delay as bv32
    ensures EeeWord(pauseWake, delay, wake) & 0xfff == wake as bv32
  {
  }

  /** The EEE TX timer writes of rtl838x_init_mac: gigabit wake 17 us, GE-lite wake 23 us. */
  function EeeWrites(L: Layout): seq<Write>
  {
    [W(L.eeeGigaCtrl, EeeWord(5, 20, 17)), W(L.eeeGeliteCtrl, EeeWord(5, 20, 23))]
  }

  /** rtl838x_init_mac: the two EEE TX timers, then the congestion timers. */
  method InitMac(rf: RegFile, L: Layout, socId: int)
    modifies rf
    ensures rf.trace == old(rf.trace) + EeeWrites(L) + CongestionWrites(L.cngstEn, socId)
    ensures rf.regs == Apply(old(rf.regs), EeeWrites(L) + CongestionWrites(L.cngstEn, socId))
  {
    ghost var m0 := rf.regs;
    rf.Write(L.eeeGigaCtrl, EeeWord(5, 20, 17));
    rf.Write(L.eeeGeliteCtrl, EeeWord(5, 20, 23));
    assert rf.trace == old(rf.trace) + EeeWrites(L);
    ghost var e := EeeWrites(L);
    assert Apply(m0, e) == Apply(m0[e[0].addr := e[0].val], e[1..]) == Apply(rf.regs, []);
    InitCongestionTimers(rf, L, socId);
    ApplyConcat(m0, e, CongestionWrites(L.cngstEn, socId));
  }

  // ---------------------------------------------------------------------
  // rtl838x_set_mac_addr

  /** The three register pairs that hold the CPU port's address are six different registers. */
  predicate MacRegsApart(L: Layout)
  {
    L.macAddr != L.macAle && L.macAddr != L.mac2 && L.macAle != L.mac2 &&
    L.macAddr != L.macAle + 4 && L.macAle != L.macAddr + 4 &&
    L.macAddr != L.mac2 + 4 && L.mac2 != L.macAddr + 4 &&
    L.macAle != L.mac2 + 4 && L.mac2 != L.macAle + 4
  }

  /** The same two words to MAC_ADDR, MAC_ALE and MAC2, each pair high word first. */
  function MacWrites(L: Layout, mac: MacAddr): seq<Write>
  {
    [W(L.macAddr, MacHi(mac)), W(L.macAddr + 4, MacLo(mac)),
     W(L.macAle, MacHi(mac)), W(L.macAle + 4, MacLo(mac)),
     W(L.mac2, MacHi(mac)), W(L.mac2 + 4, MacLo(mac))]
  }

  /** The registers after those writes. */
  function MacRegs(m: map<int, bv32>, L: Layout, mac: MacAddr): map<int, bv32>
  {
    m[L.macAddr := MacHi(mac)][L.macAddr + 4 := MacLo(mac)][L.macAle := MacHi(mac)]
     [L.macAle + 4 := MacLo(mac)][L.mac2 := MacHi(mac)][L.mac2 + 4 := MacLo(mac)]
  }

  /** rtl838x_set_mac_addr. */
  method SetMacAddr(rf: RegFile, L: Layout, mac: MacAddr)
    modifies rf
    ensures rf.trace == old(rf.trace) + MacWrites(L, mac)
    ensures rf.regs == MacRegs(old(rf.regs), L, mac)
  {
    var hi := ((mac[0] as bv32) << 8) | mac[1] as bv32;
    var lo := ((mac[2] as bv32) << 24) | ((mac[3] as bv32) << 16) | ((mac[4] as bv32) << 8) | mac[5] as bv32;
    rf.Write(L.macAddr, hi);
    rf.Write(L.macAddr + 4, lo);
    rf.Write(L.macAle, hi);
    rf.Write(L.macAle + 4, lo);
    rf.Write(L.mac2, hi);
    rf.Write(L.mac2 + 4, lo);
  }

  /** Afterwards each of the three register pairs reads back as the address set. */
  lemma SetMacReadsBack(m: map<int, bv32>, L: Layout, mac: MacAddr)
    requires MacRegsApart(L)
    ensures var r := MacRegs(m, L, mac);
      MacOf(Get(r, L.macAddr), Get(r, L.macAddr + 4)) == mac &&
      MacOf(Get(r, L.macAle), Get(r, L.macAle + 4)) == mac &&
      MacOf(Get(r, L.mac2), Get(r, L.mac2 + 4)) == mac
  {
    MacRoundTrip(mac);
  }

  // ---------------------------------------------------------------------
  // mac_force_mode

  /**
   * The CPU port's force-mode register after mac_force_mode(enable):
   * enabling sets the mode bits and FORCE_LINK_EN | MAC_FORCE_EN
   * (forceOn); disabling clears only the mode bits.
   */
  function ForceValue(v: bv32, L: Layout, enable: bool): bv32
  {
    if enable then BitSet(v, L.forceBits | L.forceOn) else BitClear(v, L.forceBits)
  }

  /** The write of mac_force_mode(enable) and the registers after it. */
  function ForceWrite(m: map<int, bv32>, L: Layout, enable: bool): Write
  {
    W(L.forceModeCtrl, ForceValue(Get(m, L.forceModeCtrl), L, enable))
  }

  function ForceRegs(m: map<int, bv32>, L: Layout, enable: bool): map<int, bv32>
  {
    m[L.forceModeCtrl := ForceValue(Get(m, L.forceModeCtrl), L, enable)]
  }

  /** mac_force_mode. */
  method MacForceMode(rf: RegFile, L: Layout, enable: bool)
    modifies rf
    ensures rf.regs == ForceRegs(old(rf.regs), L, enable)
    ensures rf.trace == old(rf.trace) + [ForceWrite(old(rf.regs), L, enable)]
  {
    var val := rf.Read(L.forceModeCtrl);
    val := ForceValue(val, L, enable);
    rf.Write(L.forceModeCtrl, val);
  }

  /** Enabling sets every mode bit and both force bits. */
  lemma ForceEnableSets(v: bv32, L: Layout)
    ensures ForceValue(v, L, true) & (L.forceBits | L.forceOn) == L.forceBits | L.forceOn
  {
    SetFacts(v, L.forceBits | L.forceOn);
  }

  /** Disabling clears every mode bit and nothing else. */
  lemma ForceDisableClears(v: bv32, L: Layout)
    ensures ForceValue(v, L, false) & L.forceBits == 0
    ensures ForceValue(v, L, false) & !L.forceBits == v & !L.forceBits
  {
    ClearFacts(v, L.forceBits);
  }

  /** So after enable then disable, FORCE_LINK_EN and MAC_FORCE_EN are still set: the link stays forced. */
  lemma ForceDisableKeepsLink(v: bv32, L: Layout)
    requires L.forceBits & L.forceOn == 0
    ensures ForceValue(ForceValue(v, L, true), L, false) & L.forceOn == L.forceOn
  {
  }

  // ---------------------------------------------------------------------
  // reset, enable_rxtx, stop

  /**
   * The registers and the CPU writes of reset: stop the port, reset the
   * NIC (which leaves maskAfter in the interrupt mask), restart the port,
   * force the link up, then mask all DMA interrupts and clear every
   * status bit.
   */
  function ResetEffect(m: map<int, bv32>, L: Layout, maskAfter: bv32): (map<int, bv32>, seq<Write>)
  {
    var m1 := RmwRegs(m, L.portCtrl, L.txRxEn, false);
    var m2 := m1[L.rstGlbCtrl := ResetDone(L)][L.intrMsk := maskAfter];
    var m3 := RmwRegs(m2, L.portCtrl, L.txRxEn, true);
    var m4 := ForceRegs(m3, L, true);
    (QuietRegs(m4, L, 0xffffffff),
     [RmwWrite(m, L.portCtrl, L.txRxEn, false), W(L.rstGlbCtrl, L.nicRst),
      RmwWrite(m2, L.portCtrl, L.txRxEn, true), ForceWrite(m3, L, true), W(L.intrMsk, 0), W(L.intrSts, 0xffffffff)])
  }

  /** reset. */
  method Reset(rf: RegFile, L: Layout, maskAfter: bv32)
    modifies rf
    ensures rf.regs == ResetEffect(old(rf.regs), L, maskAfter).0
    ensures rf.trace == old(rf.trace) + ResetEffect(old(rf.regs), L, maskAfter).1
  {
    ghost var m, t0 := rf.regs, rf.trace;
    MacPortRxtx(rf, L, false);
    ghost var m2, w1 := rf.regs[L.rstGlbCtrl := ResetDone(L)][L.intrMsk := maskAfter], RmwWrite(m, L.portCtrl, L.txRxEn, false);
    NicReset(rf, L, maskAfter);
    assert rf.trace == t0 + [w1, W(L.rstGlbCtrl, L.nicRst)];
    MacPortRxtx(rf, L, true);
    ghost var m3, w3 := rf.regs, RmwWrite(m2, L.portCtrl, L.txRxEn, true);
    assert rf.trace == t0 + [w1, W(L.rstGlbCtrl, L.nicRst), w3];
    MacForceMode(rf, L, true);
    assert rf.trace == t0 + [w1, W(L.rstGlbCtrl, L.nicRst), w3, ForceWrite(m3, L, true)];
    Quiesce(rf, L, 0xffffffff);
  }

  /**
   * After reset the NIC reset has completed, the CPU port is enabled with
   * its link forced up, every DMA interrupt is masked and the status is clear.
   */
  lemma ResetOutcome(m: map<int, bv32>, L: Layout, maskAfter: bv32)
    requires CtrlRegsApart(L)
    ensures var r := ResetEffect(m, L, maskAfter).0;
      Get(r, L.intrMsk) == 0 && Get(r, L.intrSts) == 0 &&
      Get(r, L.portCtrl) & L.txRxEn == L.txRxEn &&
      Get(r, L.forceModeCtrl) & (L.forceBits | L.forceOn) == L.forceBits | L.forceOn &&
      Get(r, L.rstGlbCtrl) & L.nicRst == 0
  {
    var m1 := RmwRegs(m, L.portCtrl, L.txRxEn, false);
    var m2 := m1[L.rstGlbCtrl := ResetDone(L)][L.intrMsk := maskAfter];
    var m3 := RmwRegs(m2, L.portCtrl, L.txRxEn, true);
    var m4 := ForceRegs(m3, L, true);
    QuietMasks(m4, L, 0xffffffff);
    ToggleSets(Get(m2, L.portCtrl), L.txRxEn, true);
    ForceEnableSets(Get(m3, L.forceModeCtrl), L);
    ClearFacts(L.nicRst, L.nicRst);
    AllCleared(Get(m4[L.intrMsk := 0], L.intrSts));
  }

  /** enable_rxtx. */
  method EnableRxtx(rf: RegFile, L: Layout)
    modifies rf
    ensures rf.regs == EnableRegs(old(rf.regs), L)
    ensures rf.trace == old(rf.trace) + EnableWrites(old(rf.regs), L)
  {
    ghost var m0, t0 := rf.regs, rf.trace;
    rf.Write(L.rxRingSize[0], 0xffffffff);
    rf.Write(L.intrMsk, 0xfffff);
    ghost var m1 := rf.regs;
    assert m1 == m0[L.rxRingSize[0] := 0xffffffff][L.intrMsk := 0xfffff];
    assert rf.trace == t0 + [W(L.rxRingSize[0], 0xffffffff), W(L.intrMsk, 0xfffff)];
    DmaIfRxtx(rf, L, true);
    assert rf.regs == RmwRegs(m1, L.dmaIfCtrl, DmaRxtxBits(L), true);
    assert rf.trace == t0 + [W(L.rxRingSize[0], 0xffffffff), W(L.intrMsk, 0xfffff)] +
                            [RmwWrite(m1, L.dmaIfCtrl, DmaRxtxBits(L), true)];
  }

  /** The MC_PMSK entry stop writes to table 0, subtable 2, address 0 to block all ports. */
  const BLOCK_ROW: Row := [0x03000000, 0, 0]

  /**
   * stop: block all ports in table 0, flush the L2 entries of every port
   * below the CPU port, drop the force-mode bits, disable DMA, mask every
   * DMA interrupt and clear the twenty RX/TX status bits.
   */
  function StopEffect(h: HwState, L: Layout, cpuPort: Port): (HwState, seq<Write>)
  {
    var p := Params(RTL838X_TBL_0, L.tables);
    var h1 := WriteEffect(h, p, 2, 0, BLOCK_ROW);
    var m2 := FlushRegs(h1.regs, L, cpuPort);
    (HwState(StopTailRegs(m2, L), h1.mem),
     WriteWrites(p, 2, 0, BLOCK_ROW) + FlushWrites(L, cpuPort) + StopTailWrites(m2, L))
  }

  /** The registers after the last three steps of stop: force mode off, DMA off, interrupts quiet. */
  function StopTailRegs(m2: map<int, bv32>, L: Layout): map<int, bv32>
  {
    var m3 := ForceRegs(m2, L, false);
    QuietRegs(RmwRegs(m3, L.dmaIfCtrl, DmaRxtxBits(L), false), L, 0x000fffff)
  }

  /** The writes of those three steps. */
  function StopTailWrites(m2: map<int, bv32>, L: Layout): seq<Write>
  {
    [ForceWrite(m2, L, false), RmwWrite(ForceRegs(m2, L, false), L.dmaIfCtrl, DmaRxtxBits(L), false),
     W(L.intrMsk, 0), W(L.intrSts, 0x000fffff)]
  }

  /** stop. */
  method Stop(rf: RegFile, hw: TableHw, L: Layout, cpuPort: Port)
    modifies rf, hw
    ensures HwState(rf.regs, hw.mem) == StopEffect(HwState(old(rf.regs), old(hw.mem)), L, cpuPort).0
    ensures rf.trace == old(rf.trace) + StopEffect(HwState(old(rf.regs), old(hw.mem)), L, cpuPort).1
  {
    ghost var h0, t0 := HwState(rf.regs, hw.mem), rf.trace;
    ghost var p := Params(RTL838X_TBL_0, L.tables);
    TableWrite(rf, hw, RTL838X_TBL_0, L.tables, 2, 0, BLOCK_ROW);
    ghost var h1 := WriteEffect(h0, p, 2, 0, BLOCK_ROW);
    ghost var a := WriteWrites(p, 2, 0, BLOCK_ROW);
    assert rf.regs == h1.regs && hw.mem == h1.mem && rf.trace == t0 + a;
    L2FlushPorts(rf, L, cpuPort);
    ghost var m2 := rf.regs;
    ghost var b := FlushWrites(L, cpuPort);
    assert m2 == FlushRegs(h1.regs, L, cpuPort) && rf.trace == t0 + a + b;
    ghost var s0 := rf.trace;
    MacForceMode(rf, L, false);
    ghost var m3 := rf.regs;
    ghost var x := ForceWrite(m2, L, false);
    assert rf.trace == s0 + [x];
    DmaIfRxtx(rf, L, false);
    ghost var y := RmwWrite(m3, L.dmaIfCtrl, DmaRxtxBits(L), false);
    assert rf.trace == s0 + [x] + [y];
    Quiesce(rf, L, 0x000fffff);
    ghost var zw := [W(L.intrMsk, 0), W(L.intrSts, 0x000fffff)];
    assert rf.trace == s0 + [x] + [y] + zw;
    assert rf.regs == StopTailRegs(m2, L);
    assert [x] + [y] + zw == StopTailWrites(m2, L);
    AppendThree(s0, [x], [y], zw);
    AppendThree(t0, a, b, StopTailWrites(m2, L));
  }

  /**
   * After stop DMA is off in both directions, every DMA interrupt is
   * masked, the RX/TX status bits are clear, and reading table 0,
   * subtable 2, address 0 returns the blocking entry.
   */
  lemma StopOutcome(h: HwState, L: Layout, cpuPort: Port)
    requires CtrlRegsApart(L) && Separate(Params(RTL838X_TBL_0, L.tables))
    ensures var r := StopEffect(h, L, cpuPort).0;
      var p := Params(RTL838X_TBL_0, L.tables);
      Get(r.regs, L.intrMsk) == 0 && Get(r.regs, L.intrSts) & 0x000fffff == 0 &&
      Get(r.regs, L.dmaIfCtrl) & DmaRxtxBits(L) == 0 &&
      DataRow(ReadEffect(r, p, 2, 0).regs, p) == BLOCK_ROW
  {
    StopQuiets(h, L, cpuPort);
    StopBlocks(h, L, cpuPort);
  }

  /** After stop the DMA interrupts are masked and cleared and DMA is off. */
  lemma StopQuiets(h: HwState, L: Layout, cpuPort: Port)
    requires CtrlRegsApart(L)
    ensures var r := StopEffect(h, L, cpuPort).0;
      Get(r.regs, L.intrMsk) == 0 && Get(r.regs, L.intrSts) & 0x000fffff == 0 &&
      Get(r.regs, L.dmaIfCtrl) & DmaRxtxBits(L) == 0
  {
    var p := Params(RTL838X_TBL_0, L.tables);
    var h1 := WriteEffect(h, p, 2, 0, BLOCK_ROW);
    var m2 := FlushRegs(h1.regs, L, cpuPort);
    var m3 := ForceRegs(m2, L, false);
    var m4 := RmwRegs(m3, L.dmaIfCtrl, DmaRxtxBits(L), false);
    assert StopEffect(h, L, cpuPort).0.regs == QuietRegs(m4, L, 0x000fffff);
    QuietMasks(m4, L, 0x000fffff);
    ToggleSets(Get(m3, L.dmaIfCtrl), DmaRxtxBits(L), false);
    assert Get(QuietRegs(m4, L, 0x000fffff), L.dmaIfCtrl) == Get(m4, L.dmaIfCtrl);
  }

  /** After stop, reading entry 0 of the port-block table returns the block row written. */
  lemma StopBlocks(h: HwState, L: Layout, cpuPort: Port)
    requires Separate(Params(RTL838X_TBL_0, L.tables))
    ensures var p := Params(RTL838X_TBL_0, L.tables);
      DataRow(ReadEffect(StopEffect(h, L, cpuPort).0, p, 2, 0).regs, p) == BLOCK_ROW
  {
    var p := Params(RTL838X_TBL_0, L.tables);
    assert StopEffect(h, L, cpuPort).0.mem == WriteEffect(h, p, 2, 0, BLOCK_ROW).mem;
    ReadAfterWrite(h, StopEffect(h, L, cpuPort).0, RTL838X_TBL_0, L.tables, 2, 0, BLOCK_ROW);
  }
}
