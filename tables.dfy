/*
 * Indirect access to the switch's hardware tables (rtl83xx-tables.c).  A
 * table is reached through one control register and three data registers;
 * the CPU packs execute, operation, subtable and address into a command
 * word, writes it to the control register, and the switch clears the
 * execute bit once the data registers have been moved to or from the table.
 */
module Tables {
  import opened Mmio
  import opened EthDefs

  /** A bit position in a 32-bit register. */
  type BitPos = n: bv32 | n < 32

  /** One of the eight entries of rtl_tables[] (RTL838X_TBL_0 .. RTL839X_TBL_L2). */
  type TableIdx = t: nat | t < 8

  /** Register addresses of the eight tables' control and data registers. */
  type Addrs = s: seq<int> | |s| == 8 witness [0, 0, 0, 0, 0, 0, 0, 0]
  datatype TableRegs = TableRegs(ctrl: Addrs, data: Addrs)

  /** The bit offsets into the control register of struct rtl_tables_s. */
  datatype Fields = Fields(exec: BitPos, op: BitPos, subtable: BitPos, addrsize: bv32)

  /** struct rtl_tables_s. */
  datatype TableParams = TableParams(ctrlReg: int, dataBase: int, f: Fields, opRead: bv32, opWrite: bv32)

  /** An all-zero entry: what a table index without an initialiser holds. */
  const NO_TABLE := TableParams(0, 0, Fields(0, 0, 0, 0), 0, 0)

  /**
   * rtl_tables[t].  The bit positions are the source's constants; the
   * register addresses come from the family headers.  RTL838X_TBL_2 has
   * no initialiser and stays all zero.
   */
  function Params(t: TableIdx, regs: TableRegs): TableParams
  {
    var c := regs.ctrl[t];
    var d := regs.data[t];
    if t == RTL838X_TBL_0 || t == RTL838X_TBL_1 then TableParams(c, d, Fields(15, 14, 12, 12), 1, 0)
    else if t == RTL838X_TBL_2 then NO_TABLE
    else if t == RTL838X_TBL_L2 then TableParams(c, d, Fields(16, 15, 13, 13), 1, 0)
    else if t == RTL839X_TBL_0 then TableParams(c, d, Fields(16, 15, 12, 12), 0, 1)
    else if t == RTL839X_TBL_1 then TableParams(c, d, Fields(15, 14, 12, 12), 0, 1)
    else if t == RTL839X_TBL_2 then TableParams(c, d, Fields(9, 8, 6, 5), 0, 1)
    else TableParams(c, d, Fields(17, 16, 14, 14), 0, 1)
  }

  /** BIT(n). */
  function Bit(n: BitPos): bv32 { 1 << n }

  /** The command word: BIT(exec) | opv << op | subtable << subtable_pos | (address & addrsize). */
  function Cmd(f: Fields, opv: bv32, subtable: bv32, address: bv32): bv32
  {
    Bit(f.exec) | (opv << f.op) | (subtable << f.subtable) | (address & f.addrsize)
  }

  function ReadCmd(p: TableParams, subtable: bv32, address: bv32): bv32
  {
    Cmd(p.f, p.opRead, subtable, address)
  }

  function WriteCmd(p: TableParams, subtable: bv32, address: bv32): bv32
  {
    Cmd(p.f, p.opWrite, subtable, address)
  }

  /**
   * Every initialised table has its execute bit right above the operation
   * bit; the RTL838x tables read with operation 1 and write with 0, the
   * RTL839x tables the other way round.  RTL838X_TBL_2 is all zero.
   */
  lemma TableConstants(t: TableIdx, regs: TableRegs)
    ensures var p := Params(t, regs);
      if t == RTL838X_TBL_2 then p == NO_TABLE
      else (p.f.exec == p.f.op + 1 && p.ctrlReg == regs.ctrl[t] && p.dataBase == regs.data[t] &&
        (p.opRead, p.opWrite) == (if t < RTL839X_TBL_0 then (1, 0) else (0, 1)))
  {
  }

  /**
   * The address field is the address ANDed with the field's position
   * number, not with a mask of that many bits.  For RTL838X_TBL_0
   * (position 12) only address bits 2 and 3 reach the command, so the
   * addresses 0 to 3 all select entry 0.
   */
  lemma Tbl0AddressAliases(s: bv32, a: bv32)
    requires a < 4
    ensures Cmd(Fields(15, 14, 12, 12), 1, s, a) == Cmd(Fields(15, 14, 12, 12), 1, s, 0)
    ensures Cmd(Fields(15, 14, 12, 12), 0, s, a) == Cmd(Fields(15, 14, 12, 12), 0, s, 0)
  {
  }

  /** For RTL839X_TBL_2 (position 5) address 2 selects the same entry as address 0. */
  lemma Tbl2AddressAliases(s: bv32, opv: bv32)
    ensures Cmd(Fields(9, 8, 6, 5), opv, s, 2) == Cmd(Fields(9, 8, 6, 5), opv, s, 0)
  {
  }

  /** The subtable values that fit below the operation bit of every initialised table. */
  predicate SubtableFits(s: bv32) { s < 4 }

  /** The operation bit of the command word. */
  function OpBit(f: Fields, cmd: bv32): bv32 { (cmd >> f.op) & 1 }

  /** The command with its execute and operation bits cleared: which entry it selects. */
  function Selector(f: Fields, cmd: bv32): bv32 { cmd & !(Bit(f.exec) | Bit(f.op)) }

  /**
   * For an initialised table and a subtable that fits its field, a command
   * decodes back into its operation, and the entry it selects does not
   * depend on the operation: a read and a write with the same arguments
   * differ in the operation bit alone.
   */
  lemma CmdDecode(t: TableIdx, regs: TableRegs, opv: bv32, s: bv32, a: bv32)
    requires t != RTL838X_TBL_2 && opv < 2 && SubtableFits(s)
    ensures Decodes(Params(t, regs).f, opv, s, a)
  {
    if t == RTL838X_TBL_0 || t == RTL838X_TBL_1 || t == RTL839X_TBL_1 {
      Decode15(opv, s, a);
    } else if t == RTL838X_TBL_L2 {
      Decode16(opv, s, a);
    } else if t == RTL839X_TBL_0 {
      Decode16x(opv, s, a);
    } else if t == RTL839X_TBL_2 {
      Decode9(opv, s, a);
    } else {
      Decode17(opv, s, a);
    }
  }

  /**
   * The command's operation bit reads back as `opv`, the entry it selects
   * is the one the operation-0 command selects, and the execute bit is set.
   */
  predicate Decodes(f: Fields, opv: bv32, s: bv32, a: bv32)
  {
    OpBit(f, Cmd(f, opv, s, a)) == opv &&
    Selector(f, Cmd(f, opv, s, a)) == Selector(f, Cmd(f, 0, s, a)) &&
    Cmd(f, opv, s, a) & Bit(f.exec) != 0
  }

  /** Decodes for the field layout of RTL838X_TBL_0, RTL838X_TBL_1 and RTL839X_TBL_1. */
  lemma Decode15(opv: bv32, s: bv32, a: bv32)
    requires opv < 2 && s < 4
    ensures Decodes(Fields(15, 14, 12, 12), opv, s, a)
  {
  }

  /** Decodes for the field layout of RTL838X_TBL_L2. */
  lemma Decode16(opv: bv32, s: bv32, a: bv32)
    requires opv < 2 && s < 4
    ensures Decodes(Fields(16, 15, 13, 13), opv, s, a)
  {
  }

  /** Decodes for the field layout of RTL839X_TBL_0. */
  lemma Decode16x(opv: bv32, s: bv32, a: bv32)
    requires opv < 2 && s < 4
    ensures Decodes(Fields(16, 15, 12, 12), opv, s, a)
  {
  }

  /** Decodes for the field layout of RTL839X_TBL_2. */
  lemma Decode9(opv: bv32, s: bv32, a: bv32)
    requires opv < 2 && s < 4
    ensures Decodes(Fields(9, 8, 6, 5), opv, s, a)
  {
  }

  /** Decodes for the field layout of RTL839X_TBL_L2. */
  lemma Decode17(opv: bv32, s: bv32, a: bv32)
    requires opv < 2 && s < 4
    ensures Decodes(Fields(17, 16, 14, 14), opv, s, a)
  {
  }

  /** One table entry: the three data words. */
  type Row = s: seq<bv32> | |s| == 3 witness [0, 0, 0]

  /** The switch's table memory, keyed by control register and entry selector. */
  type TableMem = map<(int, bv32), Row>

  /** Register state together with the table memory behind it. */
  datatype HwState = HwState(regs: map<int, bv32>, mem: TableMem)

  function Get(regs: map<int, bv32>, a: int): bv32 { if a in regs then regs[a] else 0 }

  /** The three data registers, as a row. */
  function DataRow(regs: map<int, bv32>, p: TableParams): Row
  {
    [Get(regs, TblData(p.dataBase, 0)), Get(regs, TblData(p.dataBase, 1)),
     Get(regs, TblData(p.dataBase, 2))]
  }

  /** The control register lies apart from the three data registers. */
  predicate Separate(p: TableParams)
  {
    p.ctrlReg != TblData(p.dataBase, 0) && p.ctrlReg != TblData(p.dataBase, 1) &&
    p.ctrlReg != TblData(p.dataBase, 2)
  }

  /**
   * What the switch does with the command in the control register: a write
   * stores the data registers into the selected entry, a read loads the
   * entry (zero if never written) into the data registers; then the execute
   * bit is cleared.
   */
  function HwRun(h: HwState, p: TableParams): (h': HwState)
    ensures Get(h'.regs, p.ctrlReg) & Bit(p.f.exec) == 0
  {
    var cmd := Get(h.regs, p.ctrlReg);
    var key := (p.ctrlReg, Selector(p.f, cmd));
    var done := cmd & !Bit(p.f.exec);
    if OpBit(p.f, cmd) == p.opWrite then
      HwState(h.regs[p.ctrlReg := done], h.mem[key := DataRow(h.regs, p)])
    else
      var row := if key in h.mem then h.mem[key] else [0, 0, 0];
      HwState(h.regs[TblData(p.dataBase, 0) := row[0]][TblData(p.dataBase, 1) := row[1]]
                    [TblData(p.dataBase, 2) := row[2]][p.ctrlReg := done], h.mem)
  }

  /** The CPU writes of rtl_table_write: the three data registers, then the command. */
  function WriteWrites(p: TableParams, s: bv32, a: bv32, data: Row): seq<Write>
  {
    [W(TblData(p.dataBase, 0), data[0]), W(TblData(p.dataBase, 1), data[1]),
     W(TblData(p.dataBase, 2), data[2]), W(p.ctrlReg, WriteCmd(p, s, a))]
  }

  /** The state after rtl_table_write: data registers written, command issued, switch done. */
  function WriteEffect(h: HwState, p: TableParams, s: bv32, a: bv32, data: Row): HwState
  {
    var regs := h.regs[TblData(p.dataBase, 0) := data[0]][TblData(p.dataBase, 1) := data[1]]
                      [TblData(p.dataBase, 2) := data[2]][p.ctrlReg := WriteCmd(p, s, a)];
    HwRun(HwState(regs, h.mem), p)
  }

  /** The state after rtl_table_read's command has completed; the row read is DataRow of it. */
  function ReadEffect(h: HwState, p: TableParams, s: bv32, a: bv32): HwState
  {
    HwRun(HwState(h.regs[p.ctrlReg := ReadCmd(p, s, a)], h.mem), p)
  }

  /**
   * Writing a row and reading it back with the same table, subtable and
   * address returns the row written.
   */
  lemma WriteThenRead(h: HwState, t: TableIdx, regs: TableRegs, s: bv32, a: bv32, data: Row)
    requires t != RTL838X_TBL_2 && SubtableFits(s) && Separate(Params(t, regs))
    ensures var p := Params(t, regs);
      DataRow(ReadEffect(WriteEffect(h, p, s, a, data), p, s, a).regs, p) == data
  {
    var p := Params(t, regs);
    TableConstants(t, regs);
    CmdDecode(t, regs, p.opWrite, s, a);
    CmdDecode(t, regs, p.opRead, s, a);
    var key := (p.ctrlReg, Selector(p.f, WriteCmd(p, s, a)));
    var h1 := WriteEffect(h, p, s, a, data);
    assert [data[0], data[1], data[2]] == data;
    assert h1.mem == h.mem[key := data];
    assert Selector(p.f, ReadCmd(p, s, a)) == key.1;
  }

  /**
   * Once a row is written, a later read with the same table, subtable and
   * address returns it, whatever registers changed in between.
   */
  lemma ReadAfterWrite(h: HwState, h2: HwState, t: TableIdx, regs: TableRegs, s: bv32, a: bv32, data: Row)
    requires t != RTL838X_TBL_2 && SubtableFits(s) && Separate(Params(t, regs))
    requires h2.mem == WriteEffect(h, Params(t, regs), s, a, data).mem
    ensures var p := Params(t, regs);
      DataRow(ReadEffect(h2, p, s, a).regs, p) == data
  {
    var p := Params(t, regs);
    TableConstants(t, regs);
    CmdDecode(t, regs, p.opWrite, s, a);
    CmdDecode(t, regs, p.opRead, s, a);
    var key := (p.ctrlReg, Selector(p.f, WriteCmd(p, s, a)));
    assert [data[0], data[1], data[2]] == data;
    assert h2.mem == h.mem[key := data];
    assert Selector(p.f, ReadCmd(p, s, a)) == key.1;
  }

  /** The entry a read of subtable s, address a returns: the stored row, or zeros if none was stored. */
  function Entry(mem: TableMem, p: TableParams, s: bv32, a: bv32): Row
  {
    var key := (p.ctrlReg, Selector(p.f, ReadCmd(p, s, a)));
    if key in mem then mem[key] else [0, 0, 0]
  }

  /** A read leaves that entry in the data registers. */
  lemma ReadReturns(h: HwState, t: TableIdx, regs: TableRegs, s: bv32, a: bv32)
    requires t != RTL838X_TBL_2 && SubtableFits(s) && Separate(Params(t, regs))
    ensures var p := Params(t, regs);
      DataRow(ReadEffect(h, p, s, a).regs, p) == Entry(h.mem, p, s, a)
  {
    var p := Params(t, regs);
    TableConstants(t, regs);
    CmdDecode(t, regs, p.opRead, s, a);
    var row := Entry(h.mem, p, s, a);
    assert [row[0], row[1], row[2]] == row;
  }

  /** So what a read returns depends on the table memory alone, not on the other registers. */
  lemma ReadSeesTable(h1: HwState, h2: HwState, t: TableIdx, regs: TableRegs, s: bv32, a: bv32)
    requires t != RTL838X_TBL_2 && SubtableFits(s) && Separate(Params(t, regs))
    requires h1.mem == h2.mem
    ensures var p := Params(t, regs);
      DataRow(ReadEffect(h1, p, s, a).regs, p) == DataRow(ReadEffect(h2, p, s, a).regs, p)
  {
    ReadReturns(h1, t, regs, s, a);
    ReadReturns(h2, t, regs, s, a);
  }

  /** A read leaves the table memory as it was. */
  lemma ReadKeepsTable(h: HwState, t: TableIdx, regs: TableRegs, s: bv32, a: bv32)
    requires t != RTL838X_TBL_2 && SubtableFits(s)
    ensures ReadEffect(h, Params(t, regs), s, a).mem == h.mem
  {
    TableConstants(t, regs);
    CmdDecode(t, regs, Params(t, regs).opRead, s, a);
  }

  /** The switch side of the table interface: the memory behind the data registers. */
  class TableHw {
    var mem: TableMem

    constructor ()
      ensures mem == map[]
    {
      mem := map[];
    }

    /** The switch executes the command in the control register and clears the execute bit. */
    method Complete(rf: RegFile, p: TableParams)
      modifies this, rf
      ensures HwState(rf.regs, mem) == HwRun(HwState(old(rf.regs), old(mem)), p)
      ensures rf.trace == old(rf.trace)
    {
      var h := HwRun(HwState(rf.regs, mem), p);
      rf.regs := h.regs;
      mem := h.mem;
    }
  }

  /**
   * run_table_cmd: the command goes to the control register and the call
   * returns once the execute bit reads clear.
   */
  method RunTableCmd(rf: RegFile, hw: TableHw, p: TableParams, cmd: bv32)
    modifies rf, hw
    ensures HwState(rf.regs, hw.mem) == HwRun(HwState(old(rf.regs)[p.ctrlReg := cmd], old(hw.mem)), p)
    ensures rf.trace == old(rf.trace) + [W(p.ctrlReg, cmd)]
    ensures rf.Read(p.ctrlReg) & Bit(p.f.exec) == 0
  {
    rf.Write(p.ctrlReg, cmd);
    hw.Complete(rf, p);
  }

  /**
   * rtl_table_read: issue the read command, then return the three data
   * registers.
   */
  method TableRead(rf: RegFile, hw: TableHw, t: TableIdx, regs: TableRegs, s: bv32, a: bv32)
    returns (data: Row)
    modifies rf, hw
    ensures var p := Params(t, regs);
      HwState(rf.regs, hw.mem) == ReadEffect(HwState(old(rf.regs), old(hw.mem)), p, s, a) &&
      data == DataRow(rf.regs, p)
    ensures rf.trace == old(rf.trace) + [W(Params(t, regs).ctrlReg, ReadCmd(Params(t, regs), s, a))]
  {
    var p := Params(t, regs);
    RunTableCmd(rf, hw, p, ReadCmd(p, s, a));
    data := [rf.Read(TblData(p.dataBase, 0)), rf.Read(TblData(p.dataBase, 1)),
             rf.Read(TblData(p.dataBase, 2))];
  }

  /**
   * rtl_table_write: the three data registers at data_base + 0/4/8, then
   * the write command.
   */
  method TableWrite(rf: RegFile, hw: TableHw, t: TableIdx, regs: TableRegs, s: bv32, a: bv32, data: Row)
    modifies rf, hw
    ensures var p := Params(t, regs);
      HwState(rf.regs, hw.mem) == WriteEffect(HwState(old(rf.regs), old(hw.mem)), p, s, a, data)
    ensures rf.trace == old(rf.trace) + WriteWrites(Params(t, regs), s, a, data)
  {
    var p := Params(t, regs);
    rf.Write(TblData(p.dataBase, 0), data[0]);
    rf.Write(TblData(p.dataBase, 1), data[1]);
    rf.Write(TblData(p.dataBase, 2), data[2]);
    RunTableCmd(rf, hw, p, WriteCmd(p, s, a));
  }
}
