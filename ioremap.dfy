/*
 * The platform ioremap hooks of the Realtek MIPS SoCs (ioremap.h): the
 * SoC's own register blocks are already mapped uncached, so mapping one
 * of them returns the address itself and unmapping it is a no-op the
 * hook reports as handled.
 */
module Ioremap {
  /** NULL, as plat_ioremap returns it. */
  const NULL: nat := 0

  /** is_rtl8380_internal_registers: 1 inside the IO block or the switch block, else 0. */
  function IsInternalRegisters(offset: nat): (r: int)
    ensures r == 0 || r == 1
  {
    if offset >= 0xb800_0000 && offset < 0xb900_0000 then 1
    else if offset >= 0xbb00_0000 && offset < 0xbc00_0000 then 1
    else 0
  }

  /**
   * The two blocks are the 16 MiB windows whose top address byte is 0xb8
   * and 0xbb: a second, independent description of the ranges.
   */
  lemma InternalIsTopByte(offset: nat)
    requires offset < 0x1_0000_0000
    ensures IsInternalRegisters(offset) == 1 <==> offset / 0x100_0000 == 0xb8 || offset / 0x100_0000 == 0xbb
  {
    var top := offset / 0x100_0000;
    assert top * 0x100_0000 <= offset < top * 0x100_0000 + 0x100_0000;
  }

  /** Each lower bound is inside its block and each upper bound is outside it. */
  lemma InternalBounds()
    ensures IsInternalRegisters(0xb800_0000) == 1 && IsInternalRegisters(0xb8ff_ffff) == 1
    ensures IsInternalRegisters(0xb7ff_ffff) == 0 && IsInternalRegisters(0xb900_0000) == 0
    ensures IsInternalRegisters(0xbb00_0000) == 1 && IsInternalRegisters(0xbbff_ffff) == 1
    ensures IsInternalRegisters(0xbaff_ffff) == 0 && IsInternalRegisters(0xbc00_0000) == 0
  {
  }

  /** plat_ioremap: the address itself for the internal blocks, NULL otherwise. */
  function PlatIoremap(offset: nat, size: nat, flags: nat): (p: nat)
    ensures p == offset || p == NULL
  {
    if IsInternalRegisters(offset) == 1 then offset else NULL
  }

  /** plat_iounmap: whether the address lies in an internal block. */
  function PlatIounmap(addr: nat): int
  {
    IsInternalRegisters(addr)
  }

  /**
   * The size and the flags play no part; a non-NULL mapping is the
   * identity; and unmapping what plat_ioremap handed out is reported as
   * handled, while NULL never is.
   */
  lemma RemapUnmap(offset: nat, size: nat, flags: nat, size2: nat, flags2: nat)
    ensures PlatIoremap(offset, size, flags) == PlatIoremap(offset, size2, flags2)
    ensures PlatIoremap(offset, size, flags) != NULL <==> IsInternalRegisters(offset) == 1
    ensures PlatIoremap(offset, size, flags) != NULL ==> PlatIounmap(PlatIoremap(offset, size, flags)) == 1
    ensures PlatIounmap(NULL) == 0
  {
  }
}
