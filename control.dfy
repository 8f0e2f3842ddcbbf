/*
 * The CPU-port control sequences both switch families run, each with its
 * own register names: the MAC-address register packing, the NIC soft
 * reset, the per-port L2 table flush, the interrupt quiescing and the
 * start of enable_rxtx.
 */
module Control {
  import opened Mmio
  import opened Bits
  import opened Tables
  import opened Soc

  /** A six-byte Ethernet address, most significant byte first. */
  type MacAddr = s: seq<bv8> | |s| == 6 witness [0, 0, 0, 0, 0, 0]

  /** The first MAC register word: bytes 0 and 1, byte 0 the more significant. */
  function MacHi(mac: MacAddr): bv32
  {
    ((mac[0] as bv32) << 8) | mac[1] as bv32
  }

  /** The second MAC register word: bytes 2 to 5, byte 2 the most significant. */
  function MacLo(mac: MacAddr): bv32
  {
    ((mac[2] as bv32) << 24) | ((mac[3] as bv32) << 16) | ((mac[4] as bv32) << 8) | mac[5] as bv32
  }

  /** The address a MAC register pair holds, read back byte by byte. */
  function MacOf(hi: bv32, lo: bv32): MacAddr
  {
    [((hi >> 8) & 0xff) as bv8, (hi & 0xff) as bv8,
     ((lo >> 24) & 0xff) as bv8, ((lo >> 16) & 0xff) as bv8,
     ((lo >> 8) & 0xff) as bv8, (lo & 0xff) as bv8]
  }

  /** The packing loses nothing: the register pair reads back as the address written. */
  lemma MacRoundTrip(mac: MacAddr)
    ensures MacOf(MacHi(mac), MacLo(mac)) == mac
  {
    MacHiBytes(mac[0], mac[1]);
    MacLoBytes(mac[2], mac[3], mac[4], mac[5]);
  }

  lemma MacHiBytes(a: bv8, b: bv8)
    ensures ((((a as bv32) << 8) | b as bv32) >> 8) & 0xff == a as bv32
    ensures (((a as bv32) << 8) | b as bv32) & 0xff == b as bv32
  {
  }

  lemma MacLoBytes(c: bv8, d: bv8, e: bv8, f: bv8)
    ensures var w := ((c as bv32) << 24) | ((d as bv32) << 16) | ((e as bv32) << 8) | f as bv32;
      (w >> 24) & 0xff == c as bv32 && (w >> 16) & 0xff == d as bv32 &&
      (w >> 8) & 0xff == e as bv32 && w & 0xff == f as bv32
  {
  }

  /** The first word uses only its low 16 bits. */
  lemma MacHiHighClear(mac: MacAddr)
    ensures MacHi(mac) >> 16 == 0
  {
  }

  /** The value the reset register reads once the switch has completed the NIC reset. */
  function ResetDone(L: Layout): bv32
  {
    BitClear(L.nicRst, L.nicRst)
  }

  /**
   * reset_nic: write the self-clearing NIC-reset bit and wait until it
   * reads clear.  The reset also reinitialises the DMA interrupt mask; the
   * value it leaves there is the hardware's, given as maskAfter.
   */
  method NicReset(rf: RegFile, L: Layout, maskAfter: bv32)
    modifies rf
    ensures rf.regs == old(rf.regs)[L.rstGlbCtrl := ResetDone(L)][L.intrMsk := maskAfter]
    ensures rf.trace == old(rf.trace) + [W(L.rstGlbCtrl, L.nicRst)]
    ensures L.rstGlbCtrl != L.intrMsk ==> rf.Read(L.rstGlbCtrl) & L.nicRst == 0
  {
    ghost var regs0 := rf.regs;
    rf.Write(L.rstGlbCtrl, L.nicRst);
    rf.HwSet(L.rstGlbCtrl, ResetDone(L));
    rf.HwSet(L.intrMsk, maskAfter);
    UpdateSame(regs0, L.rstGlbCtrl, L.nicRst, ResetDone(L));
    ClearFacts(L.nicRst, L.nicRst);
  }

  /** A switch port number; the CPU ports (28 and 52) and every port below them fit. */
  type Port = p: nat | p < 64

  /** The flush command l2_flush_ports issues for port p: start, compare by port, port in bits 5 and up. */
  function FlushCmd(L: Layout, p: Port): bv32
  {
    L.l2FlushSts | L.l2FlushPortCmp | ((p as bv32) << 5)
  }

  /** The port field of a flush command (bits 5 to 10). */
  function FlushPortField(cmd: bv32): bv32
  {
    (cmd >> 5) & 0x3f
  }

  /** The status and compare flags lie outside the port field. */
  predicate FlushFlagsApart(L: Layout)
  {
    (L.l2FlushSts | L.l2FlushPortCmp) & 0x7e0 == 0
  }

  /** Each flush command names its own port, so no two ports share a command. */
  lemma FlushCmdPort(L: Layout, p: Port)
    requires FlushFlagsApart(L)
    ensures FlushPortField(FlushCmd(L, p)) == p as bv32
  {
    PortFieldBits(L.l2FlushSts | L.l2FlushPortCmp, p as bv32);
  }

  lemma PortFieldBits(flags: bv32, q: bv32)
    requires flags & 0x7e0 == 0 && q < 64
    ensures ((flags | (q << 5)) >> 5) & 0x3f == q
  {
  }

  /** Every flush command starts the flush and compares by port. */
  lemma FlushCmdFlags(L: Layout, p: Port)
    ensures FlushCmd(L, p) & L.l2FlushSts == L.l2FlushSts
    ensures FlushCmd(L, p) & L.l2FlushPortCmp == L.l2FlushPortCmp
  {
  }

  /** The commands for ports 0 .. n-1, in order. */
  function FlushWrites(L: Layout, n: nat): seq<Write>
    requires n <= 64
  {
    seq(n, p requires 0 <= p < n => W(L.l2FlushCtrl, FlushCmd(L, p)))
  }

  /** The flush control register once the switch has finished flushing port p. */
  function FlushDone(L: Layout, p: Port): bv32
  {
    BitClear(FlushCmd(L, p), L.l2FlushSts)
  }

  /** The flush control register after the flushes of ports 0 .. n-1. */
  function FlushRegs(m: map<int, bv32>, L: Layout, n: nat): map<int, bv32>
    requires n <= 64
  {
    if n == 0 then m else m[L.l2FlushCtrl := FlushDone(L, n - 1)]
  }

  /** The flushes of ports 0 .. n-1 are those of 0 .. n-2 and then port n-1. */
  lemma FlushWritesSnoc(L: Layout, n: nat)
    requires 0 < n <= 64
    ensures FlushWrites(L, n) == FlushWrites(L, n - 1) + [W(L.l2FlushCtrl, FlushCmd(L, n - 1))]
  {
    assert FlushWrites(L, n)[..n - 1] == FlushWrites(L, n - 1);
  }

  /** Every port below the CPU port is flushed exactly once, in port order: the i-th command names port i. */
  lemma FlushCoversPorts(L: Layout, cpuPort: Port, i: nat)
    requires FlushFlagsApart(L) && i < |FlushWrites(L, cpuPort)|
    ensures FlushWrites(L, cpuPort)[i].addr == L.l2FlushCtrl
    ensures FlushPortField(FlushWrites(L, cpuPort)[i].val) == i as bv32
  {
    FlushCmdPort(L, i);
  }

  /**
   * l2_flush_ports: for each port below the CPU port, write the flush
   * command and wait until the switch clears the status bit.
   */
  method L2FlushPorts(rf: RegFile, L: Layout, cpuPort: Port)
    modifies rf
    ensures rf.regs == FlushRegs(old(rf.regs), L, cpuPort)
    ensures rf.trace == old(rf.trace) + FlushWrites(L, cpuPort)
  {
    var p: nat := 0;
    while p < cpuPort
      invariant 0 <= p <= cpuPort
      invariant rf.regs == FlushRegs(old(rf.regs), L, p)
      invariant rf.trace == old(rf.trace) + FlushWrites(L, p)
    {
      ghost var regs0 := rf.regs;
      var cmd := FlushCmd(L, p);
      rf.Write(L.l2FlushCtrl, cmd);
      rf.HwSet(L.l2FlushCtrl, BitClear(cmd, L.l2FlushSts));
      UpdateSame(regs0, L.l2FlushCtrl, cmd, BitClear(cmd, L.l2FlushSts));
      if p > 0 {
        UpdateSame(old(rf.regs), L.l2FlushCtrl, FlushDone(L, p - 1), FlushDone(L, p));
      }
      FlushWritesSnoc(L, p + 1);
      p := p + 1;
    }
  }

  /**
   * The CPU-port control registers the reset, enable and stop sequences
   * touch are eight different registers.
   */
  predicate CtrlRegsApart(L: Layout)
  {
    L.portCtrl != L.rstGlbCtrl && L.portCtrl != L.forceModeCtrl && L.portCtrl != L.intrMsk && L.portCtrl != L.intrSts && L.portCtrl != L.dmaIfCtrl && L.portCtrl != L.l2FlushCtrl && L.portCtrl != L.rxRingSize[0] &&
    L.rstGlbCtrl != L.forceModeCtrl && L.rstGlbCtrl != L.intrMsk && L.rstGlbCtrl != L.intrSts && L.rstGlbCtrl != L.dmaIfCtrl && L.rstGlbCtrl != L.l2FlushCtrl && L.rstGlbCtrl != L.rxRingSize[0] &&
    L.forceModeCtrl != L.intrMsk && L.forceModeCtrl != L.intrSts && L.forceModeCtrl != L.dmaIfCtrl && L.forceModeCtrl != L.l2FlushCtrl && L.forceModeCtrl != L.rxRingSize[0] &&
    L.intrMsk != L.intrSts && L.intrMsk != L.dmaIfCtrl && L.intrMsk != L.l2FlushCtrl && L.intrMsk != L.rxRingSize[0] &&
    L.intrSts != L.dmaIfCtrl && L.intrSts != L.l2FlushCtrl && L.intrSts != L.rxRingSize[0] &&
    L.dmaIfCtrl != L.l2FlushCtrl && L.dmaIfCtrl != L.rxRingSize[0] &&
    L.l2FlushCtrl != L.rxRingSize[0]
  }

  /** The registers after the closing "disable and clear interrupts" pair of writes, clearing status bits sts. */
  function QuietRegs(m: map<int, bv32>, L: Layout, sts: bv32): map<int, bv32>
  {
    var m1 := m[L.intrMsk := 0];
    m1[L.intrSts := BitClear(Get(m1, L.intrSts), sts)]
  }

  /** Afterwards every DMA interrupt is masked and the status shows none of the cleared bits. */
  lemma QuietMasks(m: map<int, bv32>, L: Layout, sts: bv32)
    requires L.intrMsk != L.intrSts
    ensures Get(QuietRegs(m, L, sts), L.intrMsk) == 0
    ensures Get(QuietRegs(m, L, sts), L.intrSts) & sts == 0
  {
    ClearFacts(Get(m[L.intrMsk := 0], L.intrSts), sts);
  }

  /** Write 0 to the interrupt mask, then write sts to the write-1-to-clear status register. */
  method Quiesce(rf: RegFile, L: Layout, sts: bv32)
    modifies rf
    ensures rf.regs == QuietRegs(old(rf.regs), L, sts)
    ensures rf.trace == old(rf.trace) + [W(L.intrMsk, 0), W(L.intrSts, sts)]
  {
    rf.Write(L.intrMsk, 0);
    ClearStatus(rf, L.intrSts, sts);
  }

  /**
   * The steps both families' enable_rxtx begin with: disable
   * head-of-line blocking on RX ring 0 (size 0xffffffff), enable the
   * RX-done, RX-overflow and TX-done interrupts (0xfffff) and enable DMA
   * in both directions.
   */
  function EnableRegs(m: map<int, bv32>, L: Layout): map<int, bv32>
  {
    RmwRegs(m[L.rxRingSize[0] := 0xffffffff][L.intrMsk := 0xfffff], L.dmaIfCtrl, DmaRxtxBits(L), true)
  }

  /** The CPU writes of those steps. */
  function EnableWrites(m: map<int, bv32>, L: Layout): seq<Write>
  {
    [W(L.rxRingSize[0], 0xffffffff), W(L.intrMsk, 0xfffff),
     RmwWrite(m[L.rxRingSize[0] := 0xffffffff][L.intrMsk := 0xfffff], L.dmaIfCtrl, DmaRxtxBits(L), true)]
  }

  /** After enable_rxtx DMA runs both ways with the twenty RX/TX interrupts unmasked. */
  lemma EnableOutcome(m: map<int, bv32>, L: Layout)
    requires CtrlRegsApart(L)
    ensures var r := EnableRegs(m, L);
      Get(r, L.intrMsk) == 0xfffff && Get(r, L.rxRingSize[0]) == 0xffffffff &&
      Get(r, L.dmaIfCtrl) & DmaRxtxBits(L) == DmaRxtxBits(L)
  {
    var m1 := m[L.rxRingSize[0] := 0xffffffff][L.intrMsk := 0xfffff];
    ToggleSets(Get(m1, L.dmaIfCtrl), DmaRxtxBits(L), true);
  }
}
