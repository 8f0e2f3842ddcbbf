/*
 * The MDIO bus driver of the RTL838x and RTL839x switches
 * (drivers/net/ethernet/realtek/rtl-mdio.c): the bounded SMI busy wait,
 * the four PHY register accessors, each run under the global smi_lock
 * mutex, and the choice of accessors at probe.  Register addresses are
 * offsets from the fixed base 0xbb000000.  What the busy bit reads at each
 * poll and the value the PHY leaves in the data register are inputs.
 */
module Mdio {
  import opened Mmio
  import opened Tables

  // The RTL838x SMI registers.
  const RTL838X_SMI_ACCESS_PHY_CTRL_0: int := 0xa1b8
  const RTL838X_SMI_ACCESS_PHY_CTRL_1: int := 0xa1bc
  const RTL838X_SMI_ACCESS_PHY_CTRL_2: int := 0xa1c0

  // The RTL839x PHY register access registers.
  const RTL839X_PHYREG_ACCESS_CTRL: int := 0x03dc
  const RTL839X_PHYREG_CTRL: int := 0x03e0
  const RTL839X_PHYREG_DATA_CTRL: int := 0x03f0

  // Bits of the RTL839x access control register.
  const PHYREGACCESS_RWOP: bv32 := 0x8
  const PHYREGACCESS_FAIL: bv32 := 0x2
  const PHYREGACCESS_CMD: bv32 := 0x1

  /** The start bit of the RTL838x CTRL_1 register, also the busy bit polled. */
  const SMI_CMD: bv32 := 0x1
  /** The write flag of the RTL838x command. */
  const SMI_RWOP: bv32 := 0x4
  /** The CTRL_1 bits the 838x accessors keep: the park page (bits 19:15) and the type bit. */
  const PARK_PAGE_MASK: bv32 := 0xf_8002

  /** The extended-page value both 839x accessors write to PHYREG_CTRL. */
  const EXT_PAGE: bv32 := 0x1ff

  /** The timeout the 838x accessors give the SMI wait. */
  const SMI_TIMEOUT: nat := 10000

  const EIO: int := 5
  const ENOMEM: int := 12

  /** smi_lock: the mutex every accessor holds while it drives the bus. */
  class Mutex {
    var held: bool

    constructor ()
      ensures !held
    {
      held := false;
    }

    method Lock()
      requires !held
      modifies this
      ensures held
    {
      held := true;
    }

    method Unlock()
      requires held
      modifies this
      ensures !held
    {
      held := false;
    }
  }

  // ---------------------------------------------------------------------
  // _rtl838x_smi_wait_op

  /** The busy bit reads set on each of the first `timeout` polls. */
  predicate TimesOut(busy: nat -> bool, timeout: nat)
  {
    forall j :: 0 <= j < timeout ==> busy(j)
  }

  /**
   * _rtl838x_smi_wait_op: while the count is non-zero and the busy bit
   * (busy(k) at poll k) reads set, count down.  It returns 1 exactly when
   * the bit read set on every one of the first `timeout` polls; `spent` is
   * how far the count went down, never more than `timeout`.
   */
  method SmiWaitOp(timeout: nat, busy: nat -> bool) returns (r: int, spent: nat)
    ensures r == (if TimesOut(busy, timeout) then 1 else 0)
    ensures spent <= timeout && forall j :: 0 <= j < spent ==> busy(j)
    ensures r == 0 ==> !busy(spent)
    ensures r == 1 ==> spent == timeout
  {
    var t: nat := timeout;
    spent := 0;
    while t != 0 && busy(spent)
      invariant t + spent == timeout
      invariant forall j :: 0 <= j < spent ==> busy(j)
      decreases t
    {
      t := t - 1;
      spent := spent + 1;
    }
    r := if t == 0 then 1 else 0;
  }

  /**
   * The busy wait of the 839x accessors, which has no timeout: poll until
   * bit 0 of the access control register reads clear.  `clear` is a poll
   * at which the hardware has finished; the wait stops at the first such.
   */
  method SpinUntilClear(busy: nat -> bool, ghost clear: nat) returns (polls: nat)
    requires !busy(clear)
    ensures polls <= clear && !busy(polls)
    ensures forall j :: 0 <= j < polls ==> busy(j)
  {
    polls := 0;
    while busy(polls)
      invariant polls <= clear
      invariant forall j :: 0 <= j < polls ==> busy(j)
      decreases clear - polls
    {
      polls := polls + 1;
    }
  }

  // ---------------------------------------------------------------------
  // The RTL838x accessors

  /** The PHY address word both 838x accessors and the 839x read write: mii_id << 16. */
  function IdWord(miiId: bv32): bv32
  {
    miiId << 16
  }

  /**
   * The CTRL_1 command word of the 838x accessors: `reg` and `page` are
   * the accessors' never-initialised locals, put in bits 31:20 and 14:3,
   * the park-page and type bits of the current CTRL_1 are kept, and a
   * write adds 0x4.  regnum takes no part.
   */
  function SmiCommand(ctrl1: bv32, reg: bv32, page: bv32, write: bool): bv32
  {
    (reg << 20) | (page << 3) | (if write then SMI_RWOP else 0) | (ctrl1 & PARK_PAGE_MASK)
  }

  /** The command word with the start bit set, as sw_w32_mask(0, 1, ...) writes it back. */
  function SmiStart(cmd: bv32): bv32
  {
    cmd | SMI_CMD
  }

  /**
   * The command word does not start the operation by itself; the write
   * flag is set exactly for a write; the kept park-page bits of CTRL_1
   * all stay set and its type bit is unchanged; the second write sets the
   * start bit.
   */
  lemma SmiCommandBits(ctrl1: bv32, reg: bv32, page: bv32, write: bool)
    ensures SmiCommand(ctrl1, reg, page, write) & SMI_CMD == 0
    ensures (SmiCommand(ctrl1, reg, page, write) & SMI_RWOP != 0) == write
    ensures SmiCommand(ctrl1, reg, page, write) & (ctrl1 & PARK_PAGE_MASK) == ctrl1 & PARK_PAGE_MASK
    ensures SmiCommand(ctrl1, reg, page, write) & 0x2 == ctrl1 & 0x2
    ensures SmiStart(SmiCommand(ctrl1, reg, page, write)) & SMI_CMD == SMI_CMD
  {
    if write {
      SmiCommandWrite(ctrl1, reg, page);
    } else {
      SmiCommandRead(ctrl1, reg, page);
    }
  }

  lemma SmiCommandRead(ctrl1: bv32, reg: bv32, page: bv32)
    ensures var c := (reg << 20) | (page << 3) | 0 | (ctrl1 & PARK_PAGE_MASK);
      c & 0x1 == 0 && c & 0x4 == 0 && c & (ctrl1 & PARK_PAGE_MASK) == ctrl1 & PARK_PAGE_MASK &&
      c & 0x2 == ctrl1 & 0x2 && (c | 0x1) & 0x1 == 0x1
  {
  }

  lemma SmiCommandWrite(ctrl1: bv32, reg: bv32, page: bv32)
    ensures var c := (reg << 20) | (page << 3) | 0x4 | (ctrl1 & PARK_PAGE_MASK);
      c & 0x1 == 0 && c & 0x4 != 0 && c & (ctrl1 & PARK_PAGE_MASK) == ctrl1 & PARK_PAGE_MASK &&
      c & 0x2 == ctrl1 & 0x2 && (c | 0x1) & 0x1 == 0x1
  {
  }

  /** The CPU writes of an 838x read once the first wait has succeeded. */
  function Rtl838xReadWrites(regs: map<int, bv32>, miiId: bv32, reg: bv32, page: bv32): seq<Write>
  {
    var cmd := SmiCommand(Get(regs, RTL838X_SMI_ACCESS_PHY_CTRL_1), reg, page, false);
    [W(RTL838X_SMI_ACCESS_PHY_CTRL_2, IdWord(miiId)),
     W(RTL838X_SMI_ACCESS_PHY_CTRL_1, cmd),
     W(RTL838X_SMI_ACCESS_PHY_CTRL_1, SmiStart(cmd))]
  }

  /** The registers after those writes. */
  function Rtl838xReadRegs(regs: map<int, bv32>, miiId: bv32, reg: bv32, page: bv32): map<int, bv32>
  {
    var cmd := SmiCommand(Get(regs, RTL838X_SMI_ACCESS_PHY_CTRL_1), reg, page, false);
    regs[RTL838X_SMI_ACCESS_PHY_CTRL_2 := IdWord(miiId)]
        [RTL838X_SMI_ACCESS_PHY_CTRL_1 := cmd]
        [RTL838X_SMI_ACCESS_PHY_CTRL_1 := SmiStart(cmd)]
  }

  /** The value an accessor returns for a data register: its low 16 bits (v & 0xffff). */
  function Low16(v: bv32): (r: int)
    ensures 0 <= r <= 0xffff
  {
    v as int % 0x1_0000
  }

  /**
   * rtl838x_mii_read.  busy1 and busy2 are the busy bit at the polls of
   * the first and second wait; `reply` is what CTRL_2 holds when the PHY
   * has answered.  The lock is released on every path.
   */
  method Rtl838xRead(rf: RegFile, lock: Mutex, miiId: bv32, regnum: int, reg: bv32, page: bv32,
                     busy1: nat -> bool, busy2: nat -> bool, reply: bv32) returns (ret: int)
    requires !lock.held
    modifies rf, lock
    ensures !lock.held
    ensures ret == -EIO <==> TimesOut(busy1, SMI_TIMEOUT) || TimesOut(busy2, SMI_TIMEOUT)
    ensures TimesOut(busy1, SMI_TIMEOUT) ==> rf.regs == old(rf.regs) && rf.trace == old(rf.trace)
    ensures !TimesOut(busy1, SMI_TIMEOUT) ==>
      rf.trace == old(rf.trace) + Rtl838xReadWrites(old(rf.regs), miiId, reg, page)
    ensures !TimesOut(busy1, SMI_TIMEOUT) && TimesOut(busy2, SMI_TIMEOUT) ==>
      rf.regs == Rtl838xReadRegs(old(rf.regs), miiId, reg, page)
    ensures !TimesOut(busy1, SMI_TIMEOUT) && !TimesOut(busy2, SMI_TIMEOUT) ==>
      rf.regs == Rtl838xReadRegs(old(rf.regs), miiId, reg, page)[RTL838X_SMI_ACCESS_PHY_CTRL_2 := reply] &&
      ret == Low16(reply)
  {
    lock.Lock();
    var r, spent := SmiWaitOp(SMI_TIMEOUT, busy1);
    if r != 0 {
      lock.Unlock();
      return -EIO;
    }
    ghost var m0, t0 := rf.regs, rf.trace;
    rf.Write(RTL838X_SMI_ACCESS_PHY_CTRL_2, IdWord(miiId));
    assert rf.Read(RTL838X_SMI_ACCESS_PHY_CTRL_1) == Get(m0, RTL838X_SMI_ACCESS_PHY_CTRL_1);
    var cmd := SmiCommand(rf.Read(RTL838X_SMI_ACCESS_PHY_CTRL_1), reg, page, false);
    rf.Write(RTL838X_SMI_ACCESS_PHY_CTRL_1, cmd);
    // sw_w32_mask(0, 1, CTRL_1): read back the command and set the start bit.
    rf.Write(RTL838X_SMI_ACCESS_PHY_CTRL_1, SmiStart(rf.Read(RTL838X_SMI_ACCESS_PHY_CTRL_1)));
    assert rf.trace == t0 + Rtl838xReadWrites(m0, miiId, reg, page);
    assert rf.regs == Rtl838xReadRegs(m0, miiId, reg, page);
    r, spent := SmiWaitOp(SMI_TIMEOUT, busy2);
    if r != 0 {
      lock.Unlock();
      return -EIO;
    }
    rf.HwSet(RTL838X_SMI_ACCESS_PHY_CTRL_2, reply);
    ret := Low16(rf.Read(RTL838X_SMI_ACCESS_PHY_CTRL_2));
    lock.Unlock();
  }

  /** The CTRL_2 value of an 838x write: value in the top half, the low half as it was. */
  function DataWord(ctrl2: bv32, value: bv16): bv32
  {
    (ctrl2 & !0xffff_0000) | ((value as bv32) << 16)
  }

  /** The data word carries the value in bits 31:16 and keeps bits 15:0 of CTRL_2. */
  lemma DataWordFields(ctrl2: bv32, value: bv16)
    ensures DataWord(ctrl2, value) >> 16 == value as bv32
    ensures DataWord(ctrl2, value) & 0xffff == ctrl2 & 0xffff
  {
  }

  /** BIT(mii_id), written to CTRL_0 to select the PHY. */
  function PhyBit(miiId: bv32): bv32
    requires miiId < 32
  {
    1 << miiId
  }

  /** The CPU writes of an 838x write once the first wait has succeeded. */
  function Rtl838xWriteWrites(regs: map<int, bv32>, miiId: bv32, value: bv16, reg: bv32, page: bv32): seq<Write>
    requires miiId < 32
  {
    var cmd := SmiCommand(Get(regs, RTL838X_SMI_ACCESS_PHY_CTRL_1), reg, page, true);
    [W(RTL838X_SMI_ACCESS_PHY_CTRL_0, PhyBit(miiId)),
     W(RTL838X_SMI_ACCESS_PHY_CTRL_2, DataWord(Get(regs, RTL838X_SMI_ACCESS_PHY_CTRL_2), value)),
     W(RTL838X_SMI_ACCESS_PHY_CTRL_1, cmd),
     W(RTL838X_SMI_ACCESS_PHY_CTRL_1, SmiStart(cmd))]
  }

  function Rtl838xWriteRegs(regs: map<int, bv32>, miiId: bv32, value: bv16, reg: bv32, page: bv32): map<int, bv32>
    requires miiId < 32
  {
    var cmd := SmiCommand(Get(regs, RTL838X_SMI_ACCESS_PHY_CTRL_1), reg, page, true);
    regs[RTL838X_SMI_ACCESS_PHY_CTRL_0 := PhyBit(miiId)]
        [RTL838X_SMI_ACCESS_PHY_CTRL_2 := DataWord(Get(regs, RTL838X_SMI_ACCESS_PHY_CTRL_2), value)]
        [RTL838X_SMI_ACCESS_PHY_CTRL_1 := cmd]
        [RTL838X_SMI_ACCESS_PHY_CTRL_1 := SmiStart(cmd)]
  }

  /**
   * rtl838x_mii_write: -EIO when either wait times out, nothing written
   * when the first one does, 0 otherwise; the lock is released on every
   * path.  PHY addresses are below 32, as the MDIO core passes them.
   */
  method Rtl838xWrite(rf: RegFile, lock: Mutex, miiId: bv32, regnum: int, value: bv16, reg: bv32, page: bv32,
                      busy1: nat -> bool, busy2: nat -> bool) returns (ret: int)
    requires miiId < 32 && !lock.held
    modifies rf, lock
    ensures !lock.held
    ensures ret == (if TimesOut(busy1, SMI_TIMEOUT) || TimesOut(busy2, SMI_TIMEOUT) then -EIO else 0)
    ensures TimesOut(busy1, SMI_TIMEOUT) ==> rf.regs == old(rf.regs) && rf.trace == old(rf.trace)
    ensures !TimesOut(busy1, SMI_TIMEOUT) ==>
      rf.trace == old(rf.trace) + Rtl838xWriteWrites(old(rf.regs), miiId, value, reg, page) &&
      rf.regs == Rtl838xWriteRegs(old(rf.regs), miiId, value, reg, page)
  {
    lock.Lock();
    var r, spent := SmiWaitOp(SMI_TIMEOUT, busy1);
    if r != 0 {
      lock.Unlock();
      return -EIO;
    }
    ghost var m0, t0 := rf.regs, rf.trace;
    rf.Write(RTL838X_SMI_ACCESS_PHY_CTRL_0, PhyBit(miiId));
    assert rf.Read(RTL838X_SMI_ACCESS_PHY_CTRL_2) == Get(m0, RTL838X_SMI_ACCESS_PHY_CTRL_2);
    rf.Write(RTL838X_SMI_ACCESS_PHY_CTRL_2, DataWord(rf.Read(RTL838X_SMI_ACCESS_PHY_CTRL_2), value));
    assert rf.Read(RTL838X_SMI_ACCESS_PHY_CTRL_1) == Get(m0, RTL838X_SMI_ACCESS_PHY_CTRL_1);
    var cmd := SmiCommand(rf.Read(RTL838X_SMI_ACCESS_PHY_CTRL_1), reg, page, true);
    rf.Write(RTL838X_SMI_ACCESS_PHY_CTRL_1, cmd);
    rf.Write(RTL838X_SMI_ACCESS_PHY_CTRL_1, SmiStart(rf.Read(RTL838X_SMI_ACCESS_PHY_CTRL_1)));
    assert rf.trace == t0 + Rtl838xWriteWrites(m0, miiId, value, reg, page);
    assert rf.regs == Rtl838xWriteRegs(m0, miiId, value, reg, page);
    r, spent := SmiWaitOp(SMI_TIMEOUT, busy2);
    if r != 0 {
      lock.Unlock();
      return -EIO;
    }
    lock.Unlock();
    ret := 0;
  }

  // ---------------------------------------------------------------------
  // The RTL839x accessors

  /** The read command as written: regnum << 5 and BIT(CMD), where CMD is itself BIT(0). */
  function Rtl839xReadCmd(regnum: bv32): bv32
  {
    (regnum << 5) | (1 << PHYREGACCESS_CMD)
  }

  /** The write command as written: regnum << 5, BIT(RWOP) and BIT(CMD), RWOP being BIT(3). */
  function Rtl839xWriteCmd(regnum: bv32): bv32
  {
    (regnum << 5) | (1 << PHYREGACCESS_RWOP) | (1 << PHYREGACCESS_CMD)
  }

  /** The register number field of an access command, bits 9:5. */
  function RegField(cmd: bv32): bv32
  {
    (cmd >> 5) & 0x1f
  }

  /**
   * As written, neither command sets the CMD bit (bit 0) the accessors
   * then poll; both set the FAIL bit (bit 1) instead; the read names
   * regnum, but the write leaves the RWOP bit (bit 3) clear, so it is
   * encoded as a read, and names register regnum | 8.
   */
  lemma Rtl839xCommandsAsWritten(regnum: bv32)
    requires regnum < 32
    ensures Rtl839xReadCmd(regnum) & PHYREGACCESS_CMD == 0 && Rtl839xReadCmd(regnum) & PHYREGACCESS_FAIL != 0
    ensures RegField(Rtl839xReadCmd(regnum)) == regnum
    ensures Rtl839xWriteCmd(regnum) & PHYREGACCESS_CMD == 0 && Rtl839xWriteCmd(regnum) & PHYREGACCESS_FAIL != 0
    ensures Rtl839xWriteCmd(regnum) & PHYREGACCESS_RWOP == 0
    ensures RegField(Rtl839xWriteCmd(regnum)) == regnum | 8
  {
    ReadCmdBits(regnum);
    WriteCmdBits(regnum);
  }

  lemma ReadCmdBits(regnum: bv32)
    requires regnum < 32
    ensures var c := (regnum << 5) | 2; c & 1 == 0 && c & 2 != 0 && (c >> 5) & 0x1f == regnum
  {
  }

  lemma WriteCmdBits(regnum: bv32)
    requires regnum < 32
    ensures var c := (regnum << 5) | 0x100 | 2;
      c & 1 == 0 && c & 2 != 0 && c & 8 == 0 && (c >> 5) & 0x1f == regnum | 8
  {
  }

  /** A write of PHY register 0 is sent as an access of register 8. */
  lemma Rtl839xWriteOfRegisterZero()
    ensures RegField(Rtl839xWriteCmd(0)) == 8 && Rtl839xWriteCmd(0) == 0x102
  {
    WriteCmdBits(0);
  }

  /** The command the bit names evidently intend: the register, RWOP for a write, and CMD to start. */
  function IntendedCmd(regnum: bv32, write: bool): bv32
  {
    (regnum << 5) | (if write then PHYREGACCESS_RWOP else 0) | PHYREGACCESS_CMD
  }

  /** The intended command starts the access, sets RWOP exactly for a write, never FAIL, and names regnum. */
  lemma IntendedCmdEncodes(regnum: bv32, write: bool)
    requires regnum < 32
    ensures IntendedCmd(regnum, write) & PHYREGACCESS_CMD != 0
    ensures (IntendedCmd(regnum, write) & PHYREGACCESS_RWOP != 0) == write
    ensures IntendedCmd(regnum, write) & PHYREGACCESS_FAIL == 0
    ensures RegField(IntendedCmd(regnum, write)) == regnum
  {
    if write {
      IntendedWriteBits(regnum);
    } else {
      IntendedReadBits(regnum);
    }
  }

  lemma IntendedReadBits(regnum: bv32)
    requires regnum < 32
    ensures var c := (regnum << 5) | 0 | 1; c & 1 != 0 && c & 8 == 0 && c & 2 == 0 && (c >> 5) & 0x1f == regnum
  {
  }

  lemma IntendedWriteBits(regnum: bv32)
    requires regnum < 32
    ensures var c := (regnum << 5) | 8 | 1; c & 1 != 0 && c & 8 != 0 && c & 2 == 0 && (c >> 5) & 0x1f == regnum
  {
  }

  /** The CPU writes of an 839x read. */
  function Rtl839xReadWrites(miiId: bv32, regnum: bv32): seq<Write>
  {
    [W(RTL839X_PHYREG_DATA_CTRL, IdWord(miiId)),
     W(RTL839X_PHYREG_CTRL, EXT_PAGE),
     W(RTL839X_PHYREG_ACCESS_CTRL, Rtl839xReadCmd(regnum))]
  }

  /**
   * rtl839x_mii_read: the PHY address, the extended page, the command,
   * the wait (busy(k) is bit 0 at poll k, clear at poll `clear`), then the
   * low half of what the PHY left in the data register.
   */
  method Rtl839xRead(rf: RegFile, lock: Mutex, miiId: bv32, regnum: bv32,
                     busy: nat -> bool, ghost clear: nat, reply: bv32) returns (ret: int)
    requires !lock.held && !busy(clear)
    modifies rf, lock
    ensures !lock.held
    ensures rf.trace == old(rf.trace) + Rtl839xReadWrites(miiId, regnum)
    ensures rf.regs == old(rf.regs)[RTL839X_PHYREG_DATA_CTRL := IdWord(miiId)][RTL839X_PHYREG_CTRL := EXT_PAGE]
                         [RTL839X_PHYREG_ACCESS_CTRL := Rtl839xReadCmd(regnum)][RTL839X_PHYREG_DATA_CTRL := reply]
    ensures ret == Low16(reply)
  {
    lock.Lock();
    rf.Write(RTL839X_PHYREG_DATA_CTRL, IdWord(miiId));
    rf.Write(RTL839X_PHYREG_CTRL, EXT_PAGE);
    rf.Write(RTL839X_PHYREG_ACCESS_CTRL, Rtl839xReadCmd(regnum));
    var polls := SpinUntilClear(busy, clear);
    rf.HwSet(RTL839X_PHYREG_DATA_CTRL, reply);
    ret := Low16(rf.Read(RTL839X_PHYREG_DATA_CTRL));
    lock.Unlock();
  }

  /** RTL839X_PHYREG_PORT_CTRL(port): one 32-port mask register per group of 32 ports, from 0x03e4. */
  function PortCtrl(port: bv32): int
  {
    0x03e4 + (port as int / 32) * 4
  }

  /** 1 << (mii_id % 32): the port's bit in its mask register. */
  function PortBit(port: bv32): bv32
  {
    1 << (port % 32)
  }

  /** The CPU writes of an 839x write. */
  function Rtl839xWriteWrites(miiId: bv32, regnum: bv32, value: bv16): seq<Write>
  {
    [W(0x03e4, 0), W(0x03e8, 0), W(PortCtrl(miiId), PortBit(miiId)),
     W(RTL839X_PHYREG_DATA_CTRL, (value as bv32) << 16),
     W(RTL839X_PHYREG_CTRL, EXT_PAGE),
     W(RTL839X_PHYREG_ACCESS_CTRL, Rtl839xWriteCmd(regnum))]
  }

  /** The two port mask registers after the first three writes. */
  function PortMaskRegs(regs: map<int, bv32>, miiId: bv32): map<int, bv32>
  {
    regs[0x03e4 := 0][0x03e8 := 0][PortCtrl(miiId) := PortBit(miiId)]
  }

  /** The two mask registers read together as one 64-port mask, port 0 in bit 0. */
  function PortMask64(regs: map<int, bv32>): bv64
  {
    ((Get(regs, 0x03e8) as bv64) << 32) | (Get(regs, 0x03e4) as bv64)
  }

  /**
   * The port mask selects exactly the PHY: for a port below 64 the two
   * registers together read as BIT(mii_id), and any higher port leaves
   * them both 0 (its bit goes to a register further on).
   */
  lemma PortMaskSelects(regs: map<int, bv32>, miiId: bv32)
    ensures miiId < 64 ==> PortMask64(PortMaskRegs(regs, miiId)) == (1 as bv64) << (miiId as bv64)
    ensures miiId >= 64 ==> PortMask64(PortMaskRegs(regs, miiId)) == 0
  {
    var m := PortMaskRegs(regs, miiId);
    if miiId < 32 {
      assert PortCtrl(miiId) == 0x03e4;
      assert Get(m, 0x03e4) == PortBit(miiId) && Get(m, 0x03e8) == 0;
      LowPortBit(miiId);
    } else if miiId < 64 {
      assert PortCtrl(miiId) == 0x03e8;
      assert Get(m, 0x03e4) == 0 && Get(m, 0x03e8) == PortBit(miiId);
      HighPortBit(miiId);
    } else {
      assert PortCtrl(miiId) > 0x03e8;
      assert Get(m, 0x03e4) == 0 && Get(m, 0x03e8) == 0;
    }
  }

  lemma LowPortBit(p: bv32)
    requires p < 32
    ensures ((0 as bv64) << 32) | (((1 as bv32) << (p % 32)) as bv64) == (1 as bv64) << (p as bv64)
  {
  }

  lemma HighPortBit(p: bv32)
    requires 32 <= p < 64
    ensures ((((1 as bv32) << (p % 32)) as bv64) << 32) | (0 as bv64) == (1 as bv64) << (p as bv64)
  {
  }

  /**
   * rtl839x_mii_write: clear both port masks, set the PHY's bit, the data
   * word value << 16, the extended page and the command, then wait; it
   * always returns 0.
   */
  method Rtl839xWrite(rf: RegFile, lock: Mutex, miiId: bv32, regnum: bv32, value: bv16,
                      busy: nat -> bool, ghost clear: nat) returns (ret: int)
    requires !lock.held && !busy(clear)
    modifies rf, lock
    ensures !lock.held && ret == 0
    ensures rf.trace == old(rf.trace) + Rtl839xWriteWrites(miiId, regnum, value)
    ensures rf.regs == PortMaskRegs(old(rf.regs), miiId)[RTL839X_PHYREG_DATA_CTRL := (value as bv32) << 16]
                         [RTL839X_PHYREG_CTRL := EXT_PAGE][RTL839X_PHYREG_ACCESS_CTRL := Rtl839xWriteCmd(regnum)]
  {
    lock.Lock();
    rf.Write(0x03e4, 0);
    rf.Write(0x03e4 + 4, 0);
    rf.Write(PortCtrl(miiId), PortBit(miiId));
    rf.Write(RTL839X_PHYREG_DATA_CTRL, (value as bv32) << 16);
    rf.Write(RTL839X_PHYREG_CTRL, EXT_PAGE);
    rf.Write(RTL839X_PHYREG_ACCESS_CTRL, Rtl839xWriteCmd(regnum));
    var polls := SpinUntilClear(busy, clear);
    lock.Unlock();
    ret := 0;
  }

  // ---------------------------------------------------------------------
  // Probe

  /** The accessor pair probe installs, if any. */
  datatype Accessors = Rtl838xAccessors | Rtl839xAccessors | NoAccessors

  /** The match data of the device-tree table; 0 (NULL) for anything else. */
  function MatchData(compatible: string): nat
  {
    if compatible == "realtek,rtl8382-mdio" then 0x8382
    else if compatible == "realtek,rtl8392-mdio" then 0x8392
    else 0
  }

  /** soc_id as written: the match data times 0xfff0, in 32-bit unsigned arithmetic. */
  function SocIdOf(data: nat): (id: nat)
    ensures id < 0x1_0000_0000
  {
    (data * 0xfff0) % 0x1_0000_0000
  }

  /** The masking the family test evidently intends, data & 0xfff0: bits 15:4 of the match data. */
  function IntendedSocId(data: nat): nat
  {
    data % 0x1_0000 / 0x10 * 0x10
  }

  function AccessorsFor(socId: nat): Accessors
  {
    if socId == 0x8380 then Rtl838xAccessors
    else if socId == 0x8390 then Rtl839xAccessors
    else NoAccessors
  }

  datatype MdioProbe = MdioProbe(err: int, accessors: Accessors)

  /**
   * realtek_rtl_mii_probe: -ENOMEM when the bus cannot be allocated;
   * otherwise the accessors its soc_id selects and whatever registering
   * the bus returns.
   */
  function Probe(allocFails: bool, compatible: string, registerErr: int): (p: MdioProbe)
    ensures allocFails ==> p.err == -ENOMEM && p.accessors == NoAccessors
    ensures !allocFails ==> p.err == registerErr
  {
    if allocFails then MdioProbe(-ENOMEM, NoAccessors)
    else MdioProbe(registerErr, AccessorsFor(SocIdOf(MatchData(compatible))))
  }

  /**
   * As written, probe installs no accessors at all: neither compatible's
   * match data times 0xfff0 is 0x8380 or 0x8390, nor is a missing one.
   */
  lemma ProbeSelectsNoAccessors(allocFails: bool, compatible: string, registerErr: int)
    ensures Probe(allocFails, compatible, registerErr).accessors == NoAccessors
  {
    assert SocIdOf(0x8382) == 0x8379_c7e0;
    assert SocIdOf(0x8392) == 0x8389_c6e0;
    assert SocIdOf(0) == 0;
  }

  /** With the intended mask, each compatible gets its family's accessors and nothing else gets any. */
  lemma IntendedProbeSelects(compatible: string)
    ensures AccessorsFor(IntendedSocId(MatchData(compatible))) ==
      (if compatible == "realtek,rtl8382-mdio" then Rtl838xAccessors
       else if compatible == "realtek,rtl8392-mdio" then Rtl839xAccessors
       else NoAccessors)
  {
    assert IntendedSocId(0x8382) == 0x8380;
    assert IntendedSocId(0x8392) == 0x8390;
    assert IntendedSocId(0) == 0;
  }
}
