/*
 * The cascaded interrupt controller of the RTL838x SoC (irq-realtek.c):
 * 32 sources, each gated by one bit of the global mask register GIMR and
 * reported in the status register GISR, and given a 4-bit routing value
 * in a nibble of the routing registers IRR0..IRR3; the CPU-level
 * dispatcher that picks the highest pending MIPS line; and the
 * controller's initialisation.
 */
module IrqRealtek {
  import opened Mmio
  import opened Bits
  import opened Tables

  // Register offsets from the controller's base.
  const GIMR: int := 0x00
  const GISR: int := 0x04
  const IRR0: int := 0x08
  const IRR1: int := 0x0c
  const IRR2: int := 0x10
  const IRR3: int := 0x14

  /** The controller's sources: irq_domain_add_simple makes a domain of 32. */
  type HwIrq = n: bv32 | n < 32

  // Source numbers of mach-realtek.h.
  const IRQ_UART0: HwIrq := 31
  const IRQ_UART1: HwIrq := 30
  const IRQ_TC0: HwIrq := 29
  const IRQ_TC1: HwIrq := 28
  const IRQ_OCPTO: HwIrq := 27
  const IRQ_HLXTO: HwIrq := 26
  const IRQ_SLXTO: HwIrq := 25
  const IRQ_NIC: HwIrq := 24
  const IRQ_GPIO_ABCD: HwIrq := 23
  const IRQ_GPIO_EFGH: HwIrq := 22
  const IRQ_RTC: HwIrq := 21
  const IRQ_SWCORE: HwIrq := 20
  const IRQ_WDT_IP1: HwIrq := 19
  const IRQ_WDT_IP2: HwIrq := 18

  // The cascade map: the 4-bit routing value each source's nibble is given.
  const CASCADE_UART0: bv32 := 2
  const CASCADE_UART1: bv32 := 1
  const CASCADE_TC0: bv32 := 5
  const CASCADE_TC1: bv32 := 1
  const CASCADE_OCPTO: bv32 := 1
  const CASCADE_HLXTO: bv32 := 1
  const CASCADE_SLXTO: bv32 := 1
  const CASCADE_NIC: bv32 := 4
  const CASCADE_GPIO_ABCD: bv32 := 4
  const CASCADE_GPIO_EFGH: bv32 := 4
  const CASCADE_RTC: bv32 := 4
  const CASCADE_SWCORE: bv32 := 3

  /** The cascade map packed into the routing registers, one nibble per source. */
  const IRR0_SETTING: bv32 :=
    (CASCADE_UART0 << 28) | (CASCADE_UART1 << 24) | (CASCADE_TC0 << 20) | (CASCADE_TC1 << 16) |
    (CASCADE_OCPTO << 12) | (CASCADE_HLXTO << 8) | (CASCADE_SLXTO << 4) | (CASCADE_NIC << 0)
  const IRR1_SETTING: bv32 :=
    (CASCADE_GPIO_ABCD << 28) | (CASCADE_GPIO_EFGH << 24) | (CASCADE_RTC << 20) | (CASCADE_SWCORE << 16)
  const IRR2_SETTING: bv32 := 0
  const IRR3_SETTING: bv32 := 0

  /** BIT(n): the GIMR / GISR bit of source n. */
  function Bit(n: HwIrq): bv32
  {
    (1 as bv32) << n
  }

  predicate IsSet(v: bv32, n: HwIrq)
  {
    v & Bit(n) != 0
  }

  // ---------------------------------------------------------------------
  // Routing

  /** The routing register that holds source n's nibble: the top eight sources in IRR0, and so on. */
  function IrrIndex(n: HwIrq): (r: nat)
    ensures r < 4
  {
    if n >= 24 then 0 else if n >= 16 then 1 else if n >= 8 then 2 else 3
  }

  /** The position of source n's nibble: the highest source of a register in its top nibble. */
  function IrrShift(n: HwIrq): bv32
  {
    28 - 4 * ((31 - n) % 8)
  }

  /** The raw 4-bit routing value the routing registers give source n; 0 leaves it unrouted. */
  function Route(irr: seq<bv32>, n: HwIrq): bv32
    requires |irr| == 4
  {
    (irr[IrrIndex(n)] >> IrrShift(n)) & 0xf
  }

  const IRR_SETTINGS: seq<bv32> := [IRR0_SETTING, IRR1_SETTING, IRR2_SETTING, IRR3_SETTING]

  /** Each source of IRR0 reads back its own routing value: no nibble overlaps another. */
  lemma Irr0Routes()
    ensures Route(IRR_SETTINGS, IRQ_UART0) == CASCADE_UART0
    ensures Route(IRR_SETTINGS, IRQ_UART1) == CASCADE_UART1
    ensures Route(IRR_SETTINGS, IRQ_TC0) == CASCADE_TC0
    ensures Route(IRR_SETTINGS, IRQ_TC1) == CASCADE_TC1
    ensures Route(IRR_SETTINGS, IRQ_OCPTO) == CASCADE_OCPTO
    ensures Route(IRR_SETTINGS, IRQ_HLXTO) == CASCADE_HLXTO
    ensures Route(IRR_SETTINGS, IRQ_SLXTO) == CASCADE_SLXTO
    ensures Route(IRR_SETTINGS, IRQ_NIC) == CASCADE_NIC
  {
  }

  /** The same for IRR1; the watchdog sources, which are not packed, are not routed. */
  lemma Irr1Routes()
    ensures Route(IRR_SETTINGS, IRQ_GPIO_ABCD) == CASCADE_GPIO_ABCD
    ensures Route(IRR_SETTINGS, IRQ_GPIO_EFGH) == CASCADE_GPIO_EFGH
    ensures Route(IRR_SETTINGS, IRQ_RTC) == CASCADE_RTC
    ensures Route(IRR_SETTINGS, IRQ_SWCORE) == CASCADE_SWCORE
    ensures Route(IRR_SETTINGS, IRQ_WDT_IP1) == 0 && Route(IRR_SETTINGS, IRQ_WDT_IP2) == 0
  {
  }

  /** No source below 18 is routed. */
  lemma LowSourcesUnrouted(n: HwIrq)
    requires n < 18
    ensures Route(IRR_SETTINGS, n) == 0
  {
  }

  // ---------------------------------------------------------------------
  // irq_chip operations

  /** realtek_ictl_enable_irq: set source hwirq's bit of GIMR. */
  method EnableIrq(rf: RegFile, base: int, hwirq: HwIrq)
    modifies rf
    ensures rf.regs == old(rf.regs)[base + GIMR := BitSet(old(rf.Read(base + GIMR)), Bit(hwirq))]
    ensures rf.trace == old(rf.trace) + [W(base + GIMR, BitSet(old(rf.Read(base + GIMR)), Bit(hwirq)))]
  {
    var value := rf.Read(base + GIMR);
    value := BitSet(value, Bit(hwirq));
    rf.Write(base + GIMR, value);
  }

  /** realtek_ictl_disable_irq: clear source hwirq's bit of GIMR. */
  method DisableIrq(rf: RegFile, base: int, hwirq: HwIrq)
    modifies rf
    ensures rf.regs == old(rf.regs)[base + GIMR := BitClear(old(rf.Read(base + GIMR)), Bit(hwirq))]
    ensures rf.trace == old(rf.trace) + [W(base + GIMR, BitClear(old(rf.Read(base + GIMR)), Bit(hwirq)))]
  {
    var value := rf.Read(base + GIMR);
    value := BitClear(value, Bit(hwirq));
    rf.Write(base + GIMR, value);
  }

  /** Enabling unmasks the source. */
  lemma EnableSets(v: bv32, n: HwIrq)
    ensures BitSet(v, Bit(n)) & Bit(n) == Bit(n)
  {
  }

  /** Enabling leaves every other source's bit as it was. */
  lemma EnableKeeps(v: bv32, n: HwIrq, k: HwIrq)
    requires k != n
    ensures BitSet(v, Bit(n)) & Bit(k) == v & Bit(k)
  {
  }

  /** Disabling masks the source. */
  lemma DisableClears(v: bv32, n: HwIrq)
    ensures BitClear(v, Bit(n)) & Bit(n) == 0
  {
  }

  /** Disabling leaves every other source's bit as it was. */
  lemma DisableKeeps(v: bv32, n: HwIrq, k: HwIrq)
    requires k != n
    ensures BitClear(v, Bit(n)) & Bit(k) == v & Bit(k)
  {
  }

  /** Disabling after enabling restores a source that was masked before. */
  lemma EnableDisableRestores(v: bv32, n: HwIrq)
    requires !IsSet(v, n)
    ensures BitClear(BitSet(v, Bit(n)), Bit(n)) == v
  {
  }

  /** The callbacks of realtek_ictl_irq. */
  datatype ChipOp = OpEnable | OpDisable | OpAck | OpMask | OpUnmask | OpEoi

  /** Whether a callback is wired to realtek_ictl_enable_irq (otherwise to disable_irq). */
  predicate Unmasks(op: ChipOp)
  {
    op.OpEnable? || op.OpUnmask? || op.OpEoi?
  }

  /** A call of one of the chip's callbacks for source hwirq. */
  method ChipCall(rf: RegFile, base: int, op: ChipOp, hwirq: HwIrq)
    modifies rf
    ensures rf.regs == old(rf.regs)[base + GIMR := Toggle(old(rf.Read(base + GIMR)), Bit(hwirq), Unmasks(op))]
    ensures rf.trace == old(rf.trace) + [W(base + GIMR, Toggle(old(rf.Read(base + GIMR)), Bit(hwirq), Unmasks(op)))]
  {
    match op {
      case OpEnable => EnableIrq(rf, base, hwirq);
      case OpUnmask => EnableIrq(rf, base, hwirq);
      case OpEoi => EnableIrq(rf, base, hwirq);
      case OpDisable => DisableIrq(rf, base, hwirq);
      case OpAck => DisableIrq(rf, base, hwirq);
      case OpMask => DisableIrq(rf, base, hwirq);
    }
  }

  /**
   * After a callback the source is unmasked exactly when the callback is
   * enable, unmask or eoi (ack masks a level interrupt until its eoi), and
   * every other source keeps its state.
   */
  lemma ChipCallEffect(v: bv32, op: ChipOp, n: HwIrq, k: HwIrq)
    ensures Toggle(v, Bit(n), Unmasks(op)) & Bit(k) ==
      if k != n then v & Bit(k) else if Unmasks(op) then Bit(n) else 0
  {
    if Unmasks(op) {
      if k == n { EnableSets(v, n); } else { EnableKeeps(v, n, k); }
    } else {
      if k == n { DisableClears(v, n); } else { DisableKeeps(v, n, k); }
    }
  }

  // ---------------------------------------------------------------------
  // Cascaded dispatch

  /** The bits below n. */
  function LowMask(n: bv32): bv32
    requires n <= 32
  {
    if n == 32 then 0xffff_ffff else Bit(n) - 1
  }

  /** Every bit of p below n is clear. */
  predicate ClearBelow(p: bv32, n: bv32)
    requires n <= 32
  {
    p & LowMask(n) == 0
  }

  /** A clear bit n extends a clear run below n by one. */
  lemma ClearBelowStep(p: bv32, n: HwIrq)
    requires ClearBelow(p, n) && !IsSet(p, n)
    ensures ClearBelow(p, n + 1)
  {
  }

  /** A word whose 32 bits are all clear is zero. */
  lemma ClearBelowAll(p: bv32)
    requires ClearBelow(p, 32)
    ensures p == 0
  {
  }

  /** Every bit inside a clear run is clear. */
  lemma ClearBelowBit(p: bv32, n: bv32, k: HwIrq)
    requires n <= 32 && k < n && ClearBelow(p, n)
    ensures !IsSet(p, k)
  {
  }

  /** The first set bit of p at or above k (bit 31 when there is none). */
  function FfsFrom(p: bv32, k: HwIrq): HwIrq
    decreases 32 - k
  {
    if IsSet(p, k) || k == 31 then k else FfsFrom(p, k + 1)
  }

  /** When the bits below k are clear, the search stops at a set bit with only clear bits below it. */
  lemma {:induction false} FfsFromFinds(p: bv32, k: HwIrq)
    requires p != 0 && ClearBelow(p, k)
    ensures IsSet(p, FfsFrom(p, k)) && ClearBelow(p, FfsFrom(p, k))
    decreases 32 - k
  {
    if !IsSet(p, k) {
      ClearBelowStep(p, k);
      if k == 31 {
        ClearBelowAll(p);
      } else {
        FfsFromFinds(p, k + 1);
      }
    }
  }

  /** __ffs: the index of the lowest set bit; the kernel leaves it undefined for zero. */
  function Ffs(p: bv32): HwIrq
    requires p != 0
  {
    FfsFrom(p, 0)
  }

  /** Ffs is set and every bit below it is clear. */
  lemma FfsLowest(p: bv32, k: HwIrq)
    requires p != 0
    ensures IsSet(p, Ffs(p)) && (k < Ffs(p) ==> !IsSet(p, k))
  {
    FfsFromFinds(p, 0);
    if k < Ffs(p) {
      ClearBelowBit(p, Ffs(p), k);
    }
  }

  /** Those two facts single Ffs out: any set bit with only clear bits below it is Ffs. */
  lemma FfsUnique(p: bv32, n: HwIrq)
    requires IsSet(p, n) && forall k: HwIrq :: k < n ==> !IsSet(p, k)
    ensures p != 0 && Ffs(p) == n
  {
    NonZero(p, n);
    FfsLowest(p, n);
  }

  /** A word with a set bit is not zero. */
  lemma NonZero(p: bv32, n: HwIrq)
    requires IsSet(p, n)
    ensures p != 0
  {
  }

  /** The outcome of realtek_irq_dispatch: the source handed to its handler, or a spurious interrupt. */
  datatype Dispatch = Handle(hwirq: HwIrq) | Spurious

  /** The choice of realtek_irq_dispatch for a pending word. */
  function DispatchOf(pending: bv32): Dispatch
  {
    if pending != 0 then Handle(Ffs(pending)) else Spurious
  }

  /** realtek_irq_dispatch: the choice made for the unmasked pending sources. */
  method DispatchIrq(rf: RegFile, base: int) returns (d: Dispatch)
    ensures d == DispatchOf(rf.Read(base + GIMR) & rf.Read(base + GISR))
  {
    var pending := rf.Read(base + GIMR) & rf.Read(base + GISR);
    if pending != 0 {
      d := Handle(Ffs(pending));
    } else {
      d := Spurious;
    }
  }

  /** With no source both unmasked and raised, the interrupt is spurious, and only then. */
  lemma DispatchSpurious(mask: bv32, status: bv32)
    ensures DispatchOf(mask & status).Spurious? <==> mask & status == 0
  {
  }

  /** The source handled is both unmasked in GIMR and raised in GISR. */
  lemma DispatchHandles(mask: bv32, status: bv32)
    requires mask & status != 0
    ensures IsSet(mask, DispatchOf(mask & status).hwirq) && IsSet(status, DispatchOf(mask & status).hwirq)
  {
    FfsLowest(mask & status, 0);
    PendingBoth(mask, status, Ffs(mask & status));
  }

  /** A source pending in GIMR & GISR is both unmasked and raised. */
  lemma PendingBoth(mask: bv32, status: bv32, n: HwIrq)
    requires IsSet(mask & status, n)
    ensures IsSet(mask, n) && IsSet(status, n)
  {
  }

  /** No lower-numbered source is both unmasked and raised when a source is handled. */
  lemma DispatchLowest(mask: bv32, status: bv32, k: HwIrq)
    requires DispatchOf(mask & status).Handle? && k < DispatchOf(mask & status).hwirq
    ensures !IsSet(mask & status, k)
  {
    FfsLowest(mask & status, k);
  }

  // ---------------------------------------------------------------------
  // CPU-level dispatch

  /** ST0_IM: the eight interrupt-mask bits of the CP0 status register. */
  const ST0_IM: bv32 := 0xff00

  /** CAUSEF_IPn: CPU line n's pending bit in the CP0 cause register. */
  function CauseIp(line: nat): bv32
    requires line < 8
  {
    (1 as bv32) << (8 + line)
  }

  const CAUSEF_IP2: bv32 := 0x0400
  const CAUSEF_IP3: bv32 := 0x0800
  const CAUSEF_IP4: bv32 := 0x1000
  const CAUSEF_IP5: bv32 := 0x2000
  const CAUSEF_IP6: bv32 := 0x4000
  const CAUSEF_IP7: bv32 := 0x8000

  /** The outcome of plat_irq_dispatch: do_IRQ(MIPS_CPU_IRQ_BASE + line), or spurious. */
  datatype CpuDispatch = DoIrq(line: nat) | CpuSpurious

  /** The lines pending and enabled. */
  function CpuPending(cause: bv32, status: bv32): bv32
  {
    cause & status & ST0_IM
  }

  /** plat_irq_dispatch's choice: counter (IP7) first, then IP6 down to IP2. */
  function PlatIrqDispatch(cause: bv32, status: bv32): CpuDispatch
  {
    var pending := CpuPending(cause, status);
    if pending & CAUSEF_IP7 != 0 then DoIrq(7)
    else if pending & CAUSEF_IP6 != 0 then DoIrq(6)
    else if pending & CAUSEF_IP5 != 0 then DoIrq(5)
    else if pending & CAUSEF_IP4 != 0 then DoIrq(4)
    else if pending & CAUSEF_IP3 != 0 then DoIrq(3)
    else if pending & CAUSEF_IP2 != 0 then DoIrq(2)
    else CpuSpurious
  }

  /** The line chosen is one of IP2..IP7, pending, and no higher line is pending. */
  lemma PlatDispatchHighest(cause: bv32, status: bv32, higher: nat)
    requires PlatIrqDispatch(cause, status).DoIrq?
    requires PlatIrqDispatch(cause, status).line < higher <= 7
    ensures var line := PlatIrqDispatch(cause, status).line;
      2 <= line && CpuPending(cause, status) & CauseIp(line) != 0 &&
      CpuPending(cause, status) & CauseIp(higher) == 0
  {
  }

  /** The interrupt is spurious exactly when none of IP2..IP7 is pending. */
  lemma PlatDispatchSpurious(cause: bv32, status: bv32)
    ensures PlatIrqDispatch(cause, status).CpuSpurious? <==>
      forall line :: 2 <= line <= 7 ==> CpuPending(cause, status) & CauseIp(line) == 0
  {
    var p := CpuPending(cause, status);
    assert CauseIp(2) == CAUSEF_IP2 && CauseIp(3) == CAUSEF_IP3 && CauseIp(4) == CAUSEF_IP4;
    assert CauseIp(5) == CAUSEF_IP5 && CauseIp(6) == CAUSEF_IP6 && CauseIp(7) == CAUSEF_IP7;
  }

  // ---------------------------------------------------------------------
  // Initialisation

  const ENXIO: int := 6

  /** The GIMR value init ends with: timer 0 and UART 0 unmasked. */
  const INIT_GIMR: bv32 := ((1 as bv32) << 29) | ((1 as bv32) << 31)

  /** The two CP0 registers init writes. */
  datatype Cp0 = Cp0(status: bv32, compare: bv32)

  /** The registers after those writes: the last GIMR write hides the first. */
  function InitRegs(m: map<int, bv32>, base: int): map<int, bv32>
  {
    m[base + GIMR := 0][base + IRR0 := IRR0_SETTING][base + IRR1 := IRR1_SETTING]
     [base + IRR2 := IRR2_SETTING][base + IRR3 := IRR3_SETTING][base + GIMR := INIT_GIMR]
  }

  /** The controller writes of rtl8380_of_init, in order. */
  function InitWrites(base: int): seq<Write>
  {
    [W(base + GIMR, 0),
     W(base + IRR0, IRR0_SETTING), W(base + IRR1, IRR1_SETTING),
     W(base + IRR2, IRR2_SETTING), W(base + IRR3, IRR3_SETTING),
     W(base + GIMR, INIT_GIMR)]
  }

  /**
   * rtl8380_of_init: with the controller mapped, mask every source, load
   * the routing registers, clear the timer compare register, enable all
   * CPU lines and unmask timer 0 and UART 0; unmapped, fail with -ENXIO.
   */
  method Init(rf: RegFile, base: int, mapped: bool, cp0: Cp0) returns (err: int, cp0After: Cp0)
    modifies rf
    ensures mapped ==>
      (err == 0 && cp0After == Cp0(cp0.status | ST0_IM, 0) &&
       rf.regs == InitRegs(old(rf.regs), base) && rf.trace == old(rf.trace) + InitWrites(base))
    ensures !mapped ==> err == -ENXIO && cp0After == cp0 && rf.regs == old(rf.regs) && rf.trace == old(rf.trace)
  {
    if !mapped {
      return -ENXIO, cp0;
    }
    ghost var t0 := rf.trace;
    rf.Write(base + GIMR, 0);
    rf.Write(base + IRR0, IRR0_SETTING);
    rf.Write(base + IRR1, IRR1_SETTING);
    rf.Write(base + IRR2, IRR2_SETTING);
    rf.Write(base + IRR3, IRR3_SETTING);
    cp0After := Cp0(cp0.status, 0);
    cp0After := cp0After.(status := cp0After.status | ST0_IM);
    rf.Write(base + GIMR, ((1 as bv32) << IRQ_TC0) | ((1 as bv32) << IRQ_UART0));
    assert rf.trace == t0 + InitWrites(base);
    err := 0;
  }

  /** After init exactly timer 0 and UART 0 are unmasked. */
  lemma InitUnmasks(n: HwIrq)
    ensures IsSet(INIT_GIMR, n) <==> n == IRQ_TC0 || n == IRQ_UART0
  {
  }

  /** After init the routing registers hold the packed cascade map and GIMR the two sources. */
  lemma InitOutcome(m: map<int, bv32>, base: int)
    ensures var r := InitRegs(m, base);
      Get(r, base + GIMR) == INIT_GIMR &&
      [Get(r, base + IRR0), Get(r, base + IRR1), Get(r, base + IRR2), Get(r, base + IRR3)] == IRR_SETTINGS
  {
  }
}
