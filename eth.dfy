/*
 * The family-independent entry points of rtl83xx-eth.c that are not part
 * of the datapath: the choice of register interface and CPU port from
 * the SoC id at probe time, and ndo_set_mac_address.
 */
module Eth {
  import opened Mmio
  import opened Tables
  import opened EthDefs
  import opened Soc
  import opened Control
  import R8 = Rtl838x
  import R9 = Rtl839x

  /** The two register interfaces: rtl838x_reg and rtl839x_reg. */
  datatype Family = Family838x | Family839x

  /** What probe settles on: the register interface and the CPU port. */
  datatype Selection = Selection(family: Family, cpuPort: Port)

  /** The outcome of the family test in probe: a selection, or -ENODEV. */
  datatype Probed = Selected(sel: Selection) | NoDevice

  const ENODEV: int := 19
  const EADDRNOTAVAIL: int := 99

  /** The family part of a SoC id: the id with its last hex digit dropped. */
  function FamilyId(socId: bv32): bv32
  {
    socId & 0xfff0
  }

  /** The family test of rtl83xx_eth_probe. */
  function SelectFamily(socId: bv32): Probed
  {
    var family := FamilyId(socId);
    if family == 0x8380 then Selected(Selection(Family838x, CPU_PORT_838X))
    else if family == 0x8390 then Selected(Selection(Family839x, CPU_PORT_839X))
    else NoDevice
  }

  /**
   * Every chip of the RTL838x family gets the RTL838x interface with CPU
   * port 28, every chip of the RTL839x family the RTL839x interface with
   * CPU port 52, and any other id is refused.
   */
  lemma SelectFamilyIds(socId: bv32)
    ensures SelectFamily(socId) == Selected(Selection(Family838x, 28)) <==> FamilyId(socId) == 0x8380
    ensures SelectFamily(socId) == Selected(Selection(Family839x, 52)) <==> FamilyId(socId) == 0x8390
    ensures SelectFamily(socId) == NoDevice <==> FamilyId(socId) != 0x8380 && FamilyId(socId) != 0x8390
  {
  }

  /** The last hex digit of the id (the chip within the family) does not change the choice. */
  lemma SelectIgnoresChip(socId: bv32, chip: bv32)
    requires chip < 16
    ensures SelectFamily((socId & !0xf) | chip) == SelectFamily(socId)
  {
    ChipDigit(socId, chip);
  }

  lemma ChipDigit(socId: bv32, chip: bv32)
    requires chip < 16
    ensures FamilyId((socId & !0xf) | chip) == FamilyId(socId)
  {
  }

  /**
   * The family selection of rtl83xx_eth_probe: on a known family, record
   * the CPU port and run that family's init_mac; otherwise fail with
   * -ENODEV before touching any register.
   */
  method ProbeFamily(rf: RegFile, hw: TableHw, L: Layout, socId: bv32) returns (err: int, probed: Probed)
    modifies rf, hw
    ensures probed == SelectFamily(socId)
    ensures err == (if probed.NoDevice? then -ENODEV else 0)
    ensures probed.NoDevice? ==> rf.regs == old(rf.regs) && rf.trace == old(rf.trace) && hw.mem == old(hw.mem)
    ensures probed.Selected? && probed.sel.family == Family838x ==>
      rf.regs == Apply(old(rf.regs), R8.EeeWrites(L) + R8.CongestionWrites(L.cngstEn, socId as int)) &&
      hw.mem == old(hw.mem) &&
      rf.trace == old(rf.trace) + R8.EeeWrites(L) + R8.CongestionWrites(L.cngstEn, socId as int)
    ensures probed.Selected? && probed.sel.family == Family839x ==>
      HwState(rf.regs, hw.mem) == R9.InitEffect(HwState(old(rf.regs), old(hw.mem)), L) &&
      rf.trace == old(rf.trace) + WriteWrites(R9.L2Params(L), 2, 0, R9.PMSK_DEFAULT)
  {
    var family := socId & 0xfff0;
    if family == 0x8380 {
      R8.InitMac(rf, L, socId as int);
      return 0, Selected(Selection(Family838x, CPU_PORT_838X));
    } else if family == 0x8390 {
      R9.InitMac(rf, hw, L);
      return 0, Selected(Selection(Family839x, CPU_PORT_839X));
    } else {
      return -ENODEV, NoDevice;
    }
  }

  // ---------------------------------------------------------------------
  // rtl83xx_set_mac_address

  /** is_multicast_ether_addr: the group bit, bit 0 of the first byte. */
  predicate IsMulticast(mac: MacAddr)
  {
    mac[0] & 1 == 1
  }

  /** is_zero_ether_addr. */
  predicate IsZeroAddr(mac: MacAddr)
  {
    mac == [0, 0, 0, 0, 0, 0]
  }

  /** is_valid_ether_addr: neither a group address nor all zero. */
  predicate ValidEtherAddr(mac: MacAddr)
  {
    !IsMulticast(mac) && !IsZeroAddr(mac)
  }

  /** The registers after the family's set_mac_addr. */
  function MacRegsOf(m: map<int, bv32>, L: Layout, family: Family, mac: MacAddr): map<int, bv32>
  {
    match family
    case Family838x => R8.MacRegs(m, L, mac)
    case Family839x => R9.MacRegs(m, L, mac)
  }

  /** The CPU writes of the family's set_mac_addr. */
  function MacWritesOf(L: Layout, family: Family, mac: MacAddr): seq<Write>
  {
    match family
    case Family838x => R8.MacWrites(L, mac)
    case Family839x => R9.MacWrites(L, mac)
  }

  /**
   * rtl83xx_set_mac_address: refuse an invalid address with
   * -EADDRNOTAVAIL and change nothing; otherwise copy it to the device
   * and program it into the switch.
   */
  method SetMacAddress(rf: RegFile, L: Layout, family: Family, devAddr: MacAddr, mac: MacAddr)
    returns (err: int, newDevAddr: MacAddr)
    modifies rf
    ensures ValidEtherAddr(mac) ==>
      err == 0 && newDevAddr == mac &&
      rf.regs == MacRegsOf(old(rf.regs), L, family, mac) &&
      rf.trace == old(rf.trace) + MacWritesOf(L, family, mac)
    ensures !ValidEtherAddr(mac) ==>
      err == -EADDRNOTAVAIL && newDevAddr == devAddr &&
      rf.regs == old(rf.regs) && rf.trace == old(rf.trace)
  {
    if !ValidEtherAddr(mac) {
      return -EADDRNOTAVAIL, devAddr;
    }
    newDevAddr := mac;
    match family {
      case Family838x => R8.SetMacAddr(rf, L, mac);
      case Family839x => R9.SetMacAddr(rf, L, mac);
    }
    err := 0;
  }

  /**
   * After an accepted address the switch's MAC_ADDR register pair reads
   * back as that address, in either family.
   */
  lemma SetMacAddressReadsBack(m: map<int, bv32>, L: Layout, family: Family, mac: MacAddr)
    requires family == Family838x ==> R8.MacRegsApart(L)
    ensures var r := MacRegsOf(m, L, family, mac);
      MacOf(Get(r, L.macAddr), Get(r, L.macAddr + 4)) == mac
  {
    match family {
      case Family838x => R8.SetMacReadsBack(m, L, mac);
      case Family839x => R9.SetMacReadsBack(m, L, mac);
    }
  }
}
