/*
 * The second driver for the same interrupt controller (irq-rtl8380.c):
 * mask and unmask callbacks only, a dispatcher chained to interrupts 2
 * to 5, and an initialisation that loads the routing registers but leaves
 * every source masked.  The register layout, the routing decode and the
 * lowest-set-bit search are those of IrqRealtek.
 */
module IrqRtl8380 {
  import opened Mmio
  import opened Bits
  import opened Tables
  import Ictl = IrqRealtek

  /** realtek_ictl_unmask_irq: set source hwirq's bit of GIMR. */
  method UnmaskIrq(rf: RegFile, base: int, hwirq: Ictl.HwIrq)
    modifies rf
    ensures rf.regs == old(rf.regs)[base + Ictl.GIMR := BitSet(old(rf.Read(base + Ictl.GIMR)), Ictl.Bit(hwirq))]
    ensures rf.trace == old(rf.trace) + [W(base + Ictl.GIMR, BitSet(old(rf.Read(base + Ictl.GIMR)), Ictl.Bit(hwirq)))]
  {
    var value := rf.Read(base + Ictl.GIMR);
    value := BitSet(value, Ictl.Bit(hwirq));
    rf.Write(base + Ictl.GIMR, value);
  }

  /** realtek_ictl_mask_irq: clear source hwirq's bit of GIMR. */
  method MaskIrq(rf: RegFile, base: int, hwirq: Ictl.HwIrq)
    modifies rf
    ensures rf.regs == old(rf.regs)[base + Ictl.GIMR := BitClear(old(rf.Read(base + Ictl.GIMR)), Ictl.Bit(hwirq))]
    ensures rf.trace == old(rf.trace) + [W(base + Ictl.GIMR, BitClear(old(rf.Read(base + Ictl.GIMR)), Ictl.Bit(hwirq)))]
  {
    var value := rf.Read(base + Ictl.GIMR);
    value := BitClear(value, Ictl.Bit(hwirq));
    rf.Write(base + Ictl.GIMR, value);
  }

  /** Masking after unmasking is the same as masking alone: the last call decides. */
  lemma MaskAfterUnmask(v: bv32, n: Ictl.HwIrq)
    ensures BitClear(BitSet(v, Ictl.Bit(n)), Ictl.Bit(n)) == BitClear(v, Ictl.Bit(n))
  {
  }

  /**
   * realtek_irq_dispatch: between chained_irq_enter and chained_irq_exit,
   * hand the lowest source both unmasked and pending to its handler, or
   * report a spurious interrupt.
   */
  method DispatchIrq(rf: RegFile, base: int) returns (d: Ictl.Dispatch)
    ensures d == Ictl.DispatchOf(rf.Read(base + Ictl.GIMR) & rf.Read(base + Ictl.GISR))
  {
    var pending := rf.Read(base + Ictl.GIMR) & rf.Read(base + Ictl.GISR);
    if pending == 0 {
      return Ictl.Spurious;
    }
    d := Ictl.Handle(Ictl.Ffs(pending));
  }

  /** The controller writes of rtl8380_of_init, in order. */
  function InitWrites(base: int): seq<Write>
  {
    [W(base + Ictl.GIMR, 0),
     W(base + Ictl.IRR0, Ictl.IRR0_SETTING), W(base + Ictl.IRR1, Ictl.IRR1_SETTING),
     W(base + Ictl.IRR2, Ictl.IRR2_SETTING), W(base + Ictl.IRR3, Ictl.IRR3_SETTING)]
  }

  /** The registers after those writes. */
  function InitRegs(m: map<int, bv32>, base: int): map<int, bv32>
  {
    m[base + Ictl.GIMR := 0][base + Ictl.IRR0 := Ictl.IRR0_SETTING][base + Ictl.IRR1 := Ictl.IRR1_SETTING]
     [base + Ictl.IRR2 := Ictl.IRR2_SETTING][base + Ictl.IRR3 := Ictl.IRR3_SETTING]
  }

  /**
   * rtl8380_of_init: with the controller mapped, mask every source, load
   * the routing registers and clear the timer compare register; unmapped,
   * fail with -ENXIO.
   */
  method Init(rf: RegFile, base: int, mapped: bool, cp0: Ictl.Cp0) returns (err: int, cp0After: Ictl.Cp0)
    modifies rf
    ensures mapped ==>
      (err == 0 && cp0After == cp0.(compare := 0) &&
       rf.regs == InitRegs(old(rf.regs), base) && rf.trace == old(rf.trace) + InitWrites(base))
    ensures !mapped ==> err == -Ictl.ENXIO && cp0After == cp0 && rf.regs == old(rf.regs) && rf.trace == old(rf.trace)
  {
    if !mapped {
      return -Ictl.ENXIO, cp0;
    }
    ghost var t0 := rf.trace;
    rf.Write(base + Ictl.GIMR, 0);
    rf.Write(base + Ictl.IRR0, Ictl.IRR0_SETTING);
    rf.Write(base + Ictl.IRR1, Ictl.IRR1_SETTING);
    rf.Write(base + Ictl.IRR2, Ictl.IRR2_SETTING);
    rf.Write(base + Ictl.IRR3, Ictl.IRR3_SETTING);
    assert rf.trace == t0 + InitWrites(base);
    cp0After := cp0.(compare := 0);
    err := 0;
  }

  /** After init every source is masked and the routing registers hold the packed cascade map. */
  lemma InitOutcome(m: map<int, bv32>, base: int, n: Ictl.HwIrq)
    ensures var r := InitRegs(m, base);
      !Ictl.IsSet(Get(r, base + Ictl.GIMR), n) &&
      [Get(r, base + Ictl.IRR0), Get(r, base + Ictl.IRR1), Get(r, base + Ictl.IRR2), Get(r, base + Ictl.IRR3)] ==
        Ictl.IRR_SETTINGS
  {
  }
}
