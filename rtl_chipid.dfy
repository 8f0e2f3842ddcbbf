/*
 * The second SoC identification driver (realtek-rtl-chipid.c).  It
 * decodes the model word exactly as ChipId does, but reads it through
 * a system-controller regmap whose reads can fail, may first open the
 * RTL8380's register protection, keeps no check that the model word
 * belongs to the matched family, and reports every failure of the
 * model read to its caller as -EINVAL.
 */
module RtlChipId {
  import opened Tables
  import opened ChipId

  /** REALTEK_REG_PROTECT_READ_WRITE: BIT(0) | BIT(1). */
  const REG_PROTECT_READ_WRITE: bv32 := 0x3

  /**
   * The syscon regmap: the registers behind it, the offsets whose
   * accesses fail and the negative errno such an access returns.
   */
  class Syscon {
    var regs: map<int, bv32>
    const failing: set<int>
    const errno: int

    predicate Valid()
      reads this
    {
      errno < 0
    }

    constructor (regs: map<int, bv32>, failing: set<int>, errno: int)
      requires errno < 0
      ensures Valid() && this.regs == regs && this.failing == failing && this.errno == errno
    {
      this.regs := regs;
      this.failing := failing;
      this.errno := errno;
    }

    /** regmap_read: the register, or the errno for a failing offset (the value is then 0 here). */
    method Read(addr: int) returns (err: int, val: bv32)
      requires Valid()
      ensures addr in failing ==> err == errno && err != 0 && val == 0
      ensures addr !in failing ==> err == 0 && val == Get(regs, addr)
    {
      if addr in failing {
        return errno, 0;
      }
      return 0, Get(regs, addr);
    }

    /** regmap_set_bits: a read-modify-write that ORs bits in, or the errno with nothing changed. */
    method SetBits(reg: int, bits: bv32) returns (err: int)
      requires Valid()
      modifies this
      ensures Valid()
      ensures regs == SetBitsRegs(old(regs), failing, reg, bits)
      ensures reg in failing ==> err == errno
      ensures reg !in failing ==> err == 0
    {
      if reg in failing {
        return errno;
      }
      regs := regs[reg := Get(regs, reg) | bits];
      err := 0;
    }
  }

  /** The registers after regmap_set_bits. */
  function SetBitsRegs(regs: map<int, bv32>, failing: set<int>, reg: int, bits: bv32): map<int, bv32>
  {
    if reg in failing then regs else regs[reg := Get(regs, reg) | bits]
  }

  /** The registers after rtl8380_read_modelinfo: the protection bits set when the node names a protect register. */
  function ProtectedRegs(regs: map<int, bv32>, failing: set<int>, protect: Option<int>): map<int, bv32>
  {
    if protect.None? then regs else SetBitsRegs(regs, failing, protect.value, REG_PROTECT_READ_WRITE)
  }

  /** Whether one of the accesses of rtl8380_read_modelinfo fails. */
  predicate Rtl8380Fails(failing: set<int>, base: int, protect: Option<int>)
  {
    (protect.Some? && protect.value in failing) ||
    base + RTL8380_MODEL_NAME in failing || base + RTL8380_MODEL_EXT_VERSION in failing
  }

  /**
   * rtl8380_read_modelinfo: open the register protection when the node
   * gives its address, then read the model word at base + 4 and the
   * revision at base + 0.  The function is declared bool, so whichever
   * errno stops it reaches the caller as true.
   */
  method Rtl8380ReadModelInfo(sc: Syscon, base: int, protect: Option<int>) returns (failed: bool, model: bv32, chipRev: bv32)
    requires sc.Valid()
    modifies sc
    ensures sc.Valid()
    ensures sc.regs == ProtectedRegs(old(sc.regs), sc.failing, protect)
    ensures failed == Rtl8380Fails(sc.failing, base, protect)
    ensures !failed ==>
      model == Get(sc.regs, base + RTL8380_MODEL_NAME) && chipRev == Get(sc.regs, base + RTL8380_MODEL_EXT_VERSION)
  {
    if protect.Some? {
      var err := sc.SetBits(protect.value, REG_PROTECT_READ_WRITE);
      if err != 0 {
        return true, 0, 0;
      }
    }
    var err;
    err, model := sc.Read(base + RTL8380_MODEL_NAME);
    if err != 0 {
      return true, model, 0;
    }
    err, chipRev := sc.Read(base + RTL8380_MODEL_EXT_VERSION);
    if err != 0 {
      return true, model, chipRev;
    }
    failed := false;
  }

  /** What the regmap looks like to realtek_read_modelinfo: a lookup errno (0: found) and the syscon behind it. */
  datatype Bus = Bus(lookupErr: int, regs: map<int, bv32>, failing: set<int>, errno: int)

  /**
   * The outcome of realtek_read_modelinfo for a family, with the model
   * registers at base and the RTL8380's optional protect register: the
   * error code and, on success, the three strings.
   */
  function ModelInfoResult(bus: Bus, family: bv32, base: int, protect: Option<int>, es8380: bool): (int, Option<SocAttr>)
  {
    if bus.lookupErr != 0 then (bus.lookupErr, None)
    else if family == COMPATIBLE_8380 then
      if Rtl8380Fails(bus.failing, base, protect) then (1, None)
      else
        var regs := ProtectedRegs(bus.regs, bus.failing, protect);
        (0, Some(Attributes(ModelInfo(Get(regs, base + RTL8380_MODEL_NAME), Get(regs, base + RTL8380_MODEL_EXT_VERSION), es8380, 3))))
    else if family == COMPATIBLE_8390 then
      if base + RTL8390_MODEL_NAME in bus.failing then (bus.errno, None)
      else (0, Some(Attributes(Decode8390(Get(bus.regs, base + RTL8390_MODEL_NAME)))))
    else if family == COMPATIBLE_9300 || family == COMPATIBLE_9310 then
      if base + RTL9300_MODEL_NAME in bus.failing then (bus.errno, None)
      else (0, Some(Attributes(Decode9300(Get(bus.regs, base + RTL9300_MODEL_NAME)))))
    else (-EINVAL, None)
  }

  /** The syscon registers after realtek_read_modelinfo: only the RTL8380 branch writes. */
  function ModelInfoRegs(bus: Bus, family: bv32, protect: Option<int>): map<int, bv32>
  {
    if bus.lookupErr == 0 && family == COMPATIBLE_8380 then ProtectedRegs(bus.regs, bus.failing, protect) else bus.regs
  }

  /** The family switch of realtek_read_modelinfo, as far as the model read. */
  method ReadMatched(sc: Syscon, family: bv32, base: int, protect: Option<int>, es8380: bool)
    returns (err: int, info: Option<ModelInfo>)
    requires sc.Valid()
    modifies sc
    ensures sc.Valid()
    ensures sc.regs == ModelInfoRegs(Bus(0, old(sc.regs), sc.failing, sc.errno), family, protect)
    ensures var r := ModelInfoResult(Bus(0, old(sc.regs), sc.failing, sc.errno), family, base, protect, es8380);
      err == r.0 && (err == 0 <==> info.Some?) &&
      (info.Some? ==> info.value.maxLetters <= 3 && r.1 == Some(Attributes(info.value)))
  {
    if family == COMPATIBLE_8380 {
      var failed, model, chipRev := Rtl8380ReadModelInfo(sc, base, protect);
      if failed {
        return 1, None;
      }
      return 0, Some(ModelInfo(model, chipRev, es8380, 3));
    } else if family == COMPATIBLE_8390 {
      var model;
      err, model := sc.Read(base + RTL8390_MODEL_NAME);
      var chipRev := (model >> 1) & 0x1f;
      if err != 0 {
        return err, None;
      }
      return 0, Some(ModelInfo(model, chipRev, chipRev != 0, 2));
    } else if family == COMPATIBLE_9300 || family == COMPATIBLE_9310 {
      var model;
      err, model := sc.Read(base + RTL9300_MODEL_NAME);
      if err != 0 {
        return err, None;
      }
      return 0, Some(ModelInfo(model, model & 0xf, (model >> 4) & 0x1 == 1, 2));
    } else {
      return -EINVAL, None;
    }
  }

  /**
   * realtek_read_modelinfo: find the regmap, run the family's branch, and
   * on success fill the letters and format the strings as ChipId does.
   */
  method ReadModelInfo(sc: Syscon, lookupErr: int, family: bv32, base: int, protect: Option<int>, es8380: bool)
    returns (err: int, attr: Option<SocAttr>)
    requires sc.Valid()
    modifies sc
    ensures sc.Valid()
    ensures sc.regs == ModelInfoRegs(Bus(lookupErr, old(sc.regs), sc.failing, sc.errno), family, protect)
    ensures (err, attr) == ModelInfoResult(Bus(lookupErr, old(sc.regs), sc.failing, sc.errno), family, base, protect, es8380)
  {
    if lookupErr != 0 {
      return lookupErr, None;
    }
    var info;
    err, info := ReadMatched(sc, family, base, protect, es8380);
    if err != 0 {
      return err, None;
    }
    var a := BuildAttributes(info.value);
    return 0, Some(a);
  }

  /**
   * The outcome of realtek_chipinfo_probe: allocation first, then the
   * match, then the model read, whose every failure becomes -EINVAL,
   * then registration.
   */
  function ProbeResult(allocFails: bool, matched: Option<bv32>, bus: Bus, base: int, protect: Option<int>,
                       es8380: bool, registerErr: int): (int, Option<SocAttr>)
  {
    if allocFails then (-ENOMEM, None)
    else if matched.None? then (-ENODEV, None)
    else
      var r := ModelInfoResult(bus, matched.value, base, protect, es8380);
      if r.0 != 0 then (-EINVAL, None)
      else if registerErr != 0 then (registerErr, None)
      else (0, r.1)
  }

  /** realtek_chipinfo_probe. */
  method Probe(sc: Syscon, allocFails: bool, matched: Option<bv32>, lookupErr: int, base: int, protect: Option<int>,
               es8380: bool, registerErr: int) returns (err: int, attr: Option<SocAttr>)
    requires sc.Valid()
    modifies sc
    ensures sc.Valid()
    ensures (err, attr) ==
      ProbeResult(allocFails, matched, Bus(lookupErr, old(sc.regs), sc.failing, sc.errno), base, protect, es8380, registerErr)
  {
    if allocFails {
      return -ENOMEM, None;
    }
    if matched.None? {
      return -ENODEV, None;
    }
    var e, a := ReadModelInfo(sc, lookupErr, matched.value, base, protect, es8380);
    if e != 0 {
      return -EINVAL, None;
    }
    if registerErr != 0 {
      return registerErr, None;
    }
    return 0, a;
  }

  /**
   * A failed RTL8380 read is reported as 1 rather than as the negative
   * errno of the access that failed, and a failed RTL8390 or RTL9300
   * read as the regmap's own errno.
   */
  lemma ModelInfoErrors(bus: Bus, family: bv32, base: int, protect: Option<int>, es8380: bool)
    requires bus.lookupErr == 0 && bus.errno < 0
    ensures var r := ModelInfoResult(bus, family, base, protect, es8380);
      (family == COMPATIBLE_8380 ==> (r.0 == 1 <==> Rtl8380Fails(bus.failing, base, protect))) &&
      (family == COMPATIBLE_8390 ==> (r.0 == bus.errno <==> base + RTL8390_MODEL_NAME in bus.failing)) &&
      (r.0 == 0 <==> r.1.Some?)
  {
  }

  /**
   * Probe succeeds exactly when allocation, the match, the regmap lookup,
   * every register access and registration succeed for one of the four
   * families; the family string then shows the model word's family,
   * whichever compatible matched.
   */
  lemma ProbeSucceeds(allocFails: bool, matched: Option<bv32>, bus: Bus, base: int, protect: Option<int>,
                      es8380: bool, registerErr: int)
    requires bus.errno < 0
    ensures var (err, attr) := ProbeResult(allocFails, matched, bus, base, protect, es8380, registerErr);
      (err == 0 <==> attr.Some?) &&
      (err == 0 <==>
        !allocFails && matched.Some? && bus.lookupErr == 0 && registerErr == 0 &&
        ((matched.value == COMPATIBLE_8380 && !Rtl8380Fails(bus.failing, base, protect)) ||
         (matched.value == COMPATIBLE_8390 && base + RTL8390_MODEL_NAME !in bus.failing) ||
         ((matched.value == COMPATIBLE_9300 || matched.value == COMPATIBLE_9310) && base + RTL9300_MODEL_NAME !in bus.failing)))
  {
  }

  /** Any failure of the model read, whatever its code, reaches the caller of probe as -EINVAL. */
  lemma ProbeCollapsesErrors(matched: bv32, bus: Bus, base: int, protect: Option<int>, es8380: bool, registerErr: int)
    requires ModelInfoResult(bus, matched, base, protect, es8380).0 != 0
    ensures ProbeResult(false, Some(matched), bus, base, protect, es8380, registerErr) == (-EINVAL, None)
  {
  }

  /**
   * There is no family check: an RTL8390 compatible over a model word of
   * the RTL9300 family is accepted, and the family string says "RTL9300".
   */
  lemma AcceptsOtherFamily()
    ensures var bus := Bus(0, map[0 := 0x9300_0000], {}, -5);
      var r := ProbeResult(false, Some(COMPATIBLE_8390), bus, 0, None, false, 0);
      r.0 == 0 && r.1.Some? && r.1.value.family == "RTL9300"
  {
    assert Hex4(SocFamily(0x9300_0000)) == "9300";
  }

  /**
   * Where both drivers succeed on the same registers, without a protect
   * register and with the chip-info block at offset 0, they register the
   * same three strings.
   */
  lemma AgreesWithChipId(regs: map<int, bv32>, family: bv32, es8380: bool, registerErr: int)
    requires ChipId.ProbeResult(Env(0, false, registerErr), regs, Some(family), es8380).0 == 0
    ensures ProbeResult(false, Some(family), Bus(0, regs, {}, -5), 0, None, es8380, registerErr) ==
      ChipId.ProbeResult(Env(0, false, registerErr), regs, Some(family), es8380)
  {
  }
}
