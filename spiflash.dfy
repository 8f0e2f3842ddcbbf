/*
 * The SPI-NOR controller of the RTL838x (rtl8380-spiflash.c).  Every
 * flash operation is a sequence of writes to two registers: SFCSR (chip
 * selects, transfer length 1 to 4 bytes) and SFDR (the data shifted out,
 * most significant byte first; reads of SFDR return the bytes shifted in).
 * The controller is a trace of those writes plus the stream of values
 * successive SFDR reads return.  The CPU is big-endian, so a 32-bit load
 * or store through a byte buffer packs its bytes most significant first.
 */
module SpiFlash {
  import opened Mmio

  // Register offsets.
  const SFCSR: int := 0x08
  const SFDR: int := 0x0c

  // SFCSR bits.
  const SFCSR_CSB0: bv32 := 0x8000_0000
  const SFCSR_CSB1: bv32 := 0x4000_0000
  const SFCSR_RDY: bv32 := 0x0800_0000
  const SFCSR_CS: bv32 := 0x0100_0000
  const SFCSR_LEN_MASK: bv32 := 0xcfff_ffff
  const SFCSR_LEN1: bv32 := 0x0000_0000
  const SFCSR_LEN2: bv32 := 0x1000_0000
  const SFCSR_LEN3: bv32 := 0x2000_0000
  const SFCSR_LEN4: bv32 := 0x3000_0000

  const EINVAL: int := 22

  /** The transfer length field of an SFCSR value: 0 to 3 for 1 to 4 bytes. */
  function LenField(sfcsr: bv32): bv32
  {
    (sfcsr >> 28) & 0x3
  }

  /** LEN_MASK is the complement of the length field, and LEN1 to LEN4 set it to 0 to 3. */
  lemma LenConstants()
    ensures SFCSR_LEN_MASK == !((0x03 as bv32) << 28)
    ensures LenField(SFCSR_LEN1) == 0 && LenField(SFCSR_LEN2) == 1 && LenField(SFCSR_LEN3) == 2 && LenField(SFCSR_LEN4) == 3
  {
  }

  /** The SFCSR value spi_prep writes first: both chip selects high (inactive), length 1. */
  const DESELECT: bv32 := (SFCSR_CSB0 | SFCSR_CSB1) & SFCSR_LEN_MASK

  /** The SFCSR base value spi_prep returns for chip select cs; the chip selects are active low. */
  function PrepValue(cs: bv32): bv32
  {
    if cs == 0 then SFCSR_LEN1 | SFCSR_CSB1 else SFCSR_LEN1 | SFCSR_CSB0 | SFCSR_CS
  }

  /**
   * spi_prep first deselects both chips; its result selects exactly chip
   * cs (its CSB bit low, the other's high, CS set for chip 1), with the
   * length field at one byte, so masking the length off changes nothing.
   */
  lemma PrepSelects(cs: bv32)
    ensures DESELECT & SFCSR_CSB0 != 0 && DESELECT & SFCSR_CSB1 != 0 && LenField(DESELECT) == 0
    ensures cs == 0 ==> PrepValue(cs) & SFCSR_CSB0 == 0 && PrepValue(cs) & SFCSR_CSB1 != 0 && PrepValue(cs) & SFCSR_CS == 0
    ensures cs != 0 ==> PrepValue(cs) & SFCSR_CSB1 == 0 && PrepValue(cs) & SFCSR_CSB0 != 0 && PrepValue(cs) & SFCSR_CS != 0
    ensures LenField(PrepValue(cs)) == 0 && PrepValue(cs) & SFCSR_LEN_MASK == PrepValue(cs)
  {
  }

  /** The command byte in the top byte of SFDR. */
  function OpWord(opcode: bv8): bv32
  {
    (opcode as bv32) << 24
  }

  /** Byte i (0 the most significant) of a word: the order SFDR shifts bytes. */
  function ByteOf(w: bv32, i: nat): bv8
    requires i < 4
  {
    ((w >> (24 - 8 * i as bv32)) & 0xff) as bv8
  }

  /** A big-endian 32-bit load of four bytes. */
  function Pack(b0: bv8, b1: bv8, b2: bv8, b3: bv8): bv32
  {
    ((b0 as bv32) << 24) | ((b1 as bv32) << 16) | ((b2 as bv32) << 8) | (b3 as bv32)
  }

  /** The bytes of a word, most significant first: a big-endian 32-bit store. */
  function Bytes(w: bv32): (s: seq<bv8>)
    ensures |s| == 4
  {
    [ByteOf(w, 0), ByteOf(w, 1), ByteOf(w, 2), ByteOf(w, 3)]
  }

  lemma PackBytes(b0: bv8, b1: bv8, b2: bv8, b3: bv8)
    ensures Bytes(Pack(b0, b1, b2, b3)) == [b0, b1, b2, b3]
  {
  }

  /** The value an SFDR read returns: the next in the stream, 0 once it is exhausted. */
  function Head(rx: seq<bv32>): bv32
  {
    if rx == [] then 0 else rx[0]
  }

  function Tail(rx: seq<bv32>): seq<bv32>
  {
    if rx == [] then [] else rx[1..]
  }

  /** The stream after n reads. */
  function Drop(rx: seq<bv32>, n: nat): seq<bv32>
  {
    if n <= |rx| then rx[n..] else []
  }

  /** The length field of the address phase: four bytes for 4-byte addressing, else three. */
  function AddrBits(addrWidth: nat): bv32
  {
    if addrWidth == 4 then 0x03 else 0x02
  }

  /**
   * The value of the address word: from (a 64-bit loff_t) shifted into
   * the top three bytes unless the flash takes 4-byte addresses, then cut
   * to 32 bits by writel.
   */
  function AddrValue(from: nat, addrWidth: nat): (a: nat)
    ensures a < 0x1_0000_0000
  {
    if addrWidth == 4 then from % 0x1_0000_0000 else (from * 0x100) % 0x1_0000_0000
  }

  function AddrWord(from: nat, addrWidth: nat): bv32
  {
    AddrValue(from, addrWidth) as bv32
  }

  /**
   * The address phase sends exactly the address: four bytes, the whole
   * word, for 4-byte addressing; otherwise three bytes, the top three of
   * the word, which hold a 24-bit address above a zero low byte.
   */
  lemma AddressPhase(from: nat, addrWidth: nat)
    ensures addrWidth == 4 ==> AddrBits(addrWidth) + 1 == 4
    ensures addrWidth == 4 && from < 0x1_0000_0000 ==> AddrValue(from, addrWidth) == from
    ensures addrWidth != 4 ==> AddrBits(addrWidth) + 1 == 3
    ensures addrWidth != 4 && from < 0x100_0000 ==>
      AddrValue(from, addrWidth) / 0x100 == from && AddrValue(from, addrWidth) % 0x100 == 0
  {
  }

  /** The command and address phases shared by read, write and erase. */
  function CmdAddrWrites(base: bv32, opcode: bv8, from: nat, addrWidth: nat): seq<Write>
  {
    [W(SFCSR, base | SFCSR_LEN1), W(SFDR, OpWord(opcode)),
     W(SFCSR, base | (AddrBits(addrWidth) << 28)), W(SFDR, AddrWord(from, addrWidth))]
  }

  /** n dummy bytes: each a one-byte transfer of 0. */
  function DummyWrites(base: bv32, n: nat): (ws: seq<Write>)
    ensures |ws| == 2 * n
  {
    if n == 0 then [] else DummyWrites(base, n - 1) + [W(SFCSR, base), W(SFDR, 0)]
  }

  /** The bytes of n words read in 4-byte transfers. */
  function WordBytes(rx: seq<bv32>, n: nat): (s: seq<bv8>)
    ensures |s| == 4 * n
  {
    if n == 0 then [] else WordBytes(rx, n - 1) + Bytes(Head(Drop(rx, n - 1)))
  }

  /** The bytes of m one-byte transfers: the top byte of each read. */
  function TopBytes(rx: seq<bv32>, m: nat): (s: seq<bv8>)
    ensures |s| == m
  {
    if m == 0 then [] else TopBytes(rx, m - 1) + [ByteOf(Head(Drop(rx, m - 1)), 0)]
  }

  /** What rtl8380_nor_read stores: len / 4 words, then len % 4 single bytes. */
  function ReadData(rx: seq<bv32>, len: nat): (s: seq<bv8>)
    ensures |s| == len
  {
    WordBytes(rx, len / 4) + TopBytes(Drop(rx, len / 4), len % 4)
  }

  /** The SFDR values that send whole 4-byte chunks of buf, each packed as the CPU loads it. */
  function WordValues(buf: seq<bv8>, n: nat): (vs: seq<bv32>)
    requires 4 * n <= |buf|
    ensures |vs| == n
  {
    if n == 0 then []
    else WordValues(buf, n - 1) + [Pack(buf[4 * n - 4], buf[4 * n - 3], buf[4 * n - 2], buf[4 * n - 1])]
  }

  /** The SFDR values that send buf[k..k+m] one byte at a time, in the top byte. */
  function ByteValues(buf: seq<bv8>, k: nat, m: nat): (vs: seq<bv32>)
    requires k + m <= |buf|
    ensures |vs| == m
  {
    if m == 0 then [] else ByteValues(buf, k, m - 1) + [(buf[k + m - 1] as bv32) << 24]
  }

  /** Writes of SFDR with the given values, in order. */
  function SfdrWrites(vs: seq<bv32>): (ws: seq<Write>)
    ensures |ws| == |vs|
  {
    seq(|vs|, i requires 0 <= i < |vs| => W(SFDR, vs[i]))
  }

  lemma SfdrWritesSnoc(vs: seq<bv32>, v: bv32)
    ensures SfdrWrites(vs + [v]) == SfdrWrites(vs) + [W(SFDR, v)]
  {
  }

  /** The SFCSR base value read and write use: spi_prep's with the length field cleared. */
  function Base(cs: bv32): bv32
  {
    PrepValue(cs) & SFCSR_LEN_MASK
  }

  /** The full register trace of rtl8380_nor_write. */
  function WriteTrace(cs: bv32, opcode: bv8, to: nat, addrWidth: nat, buf: seq<bv8>): seq<Write>
  {
    [W(SFCSR, DESELECT)] + CmdAddrWrites(Base(cs), opcode, to, addrWidth) +
    [W(SFCSR, Base(cs) | SFCSR_LEN4)] + SfdrWrites(WordValues(buf, |buf| / 4)) +
    [W(SFCSR, Base(cs) | SFCSR_LEN1)] + SfdrWrites(ByteValues(buf, |buf| / 4 * 4, |buf| % 4))
  }

  /** The full register trace of rtl8380_nor_read; the reads themselves write nothing. */
  function ReadTrace(cs: bv32, opcode: bv8, from: nat, addrWidth: nat, dummy: nat): seq<Write>
  {
    [W(SFCSR, DESELECT)] + CmdAddrWrites(Base(cs), opcode, from, addrWidth) + DummyWrites(Base(cs), dummy / 8) +
    [W(SFCSR, Base(cs) | SFCSR_LEN4), W(SFCSR, Base(cs) | SFCSR_LEN1)]
  }

  /** The one-word command rtl8380_nor_write_reg sends: opcode, then up to two data bytes. */
  function RegWord(opcode: bv8, buf: seq<bv8>): bv32
    requires |buf| <= 2
  {
    if |buf| == 0 then OpWord(opcode)
    else if |buf| == 1 then OpWord(opcode) | ((buf[0] as bv32) << 16)
    else OpWord(opcode) | ((buf[0] as bv32) << 16) | ((buf[1] as bv32) << 8)
  }

  function RegLenBits(n: nat): bv32
    requires n <= 2
  {
    if n == 0 then SFCSR_LEN1 else if n == 1 then SFCSR_LEN2 else SFCSR_LEN3
  }

  lemma DropStep(rx: seq<bv32>, n: nat)
    ensures Drop(rx, n + 1) == Tail(Drop(rx, n))
  {
  }

  /** Appending pieces one by one appends their concatenation. */
  lemma AppendAssoc(t: seq<Write>, a: seq<Write>, b: seq<Write>, c: seq<Write>, d: seq<Write>)
    ensures t + a + b + c + d == t + (a + b + c + d)
  {
  }

  /** The SPI controller of one flash chip. */
  class Controller {
    var trace: seq<Write>
    var rx: seq<bv32>
    const cs: bv32
    const addrWidth: nat

    constructor (cs: bv32, addrWidth: nat, rx: seq<bv32>)
      ensures this.cs == cs && this.addrWidth == addrWidth && this.rx == rx && trace == []
    {
      this.cs := cs;
      this.addrWidth := addrWidth;
      this.rx := rx;
      trace := [];
    }

    /** rtl8380_write: wait for RDY (taken to come), then write the register. */
    method WriteRegister(reg: int, value: bv32)
      modifies this
      ensures trace == old(trace) + [W(reg, value)] && rx == old(rx)
    {
      trace := trace + [W(reg, value)];
    }

    /** rtl8380_read of SFDR: the next value the controller shifted in. */
    method ReadSfdr() returns (v: bv32)
      modifies this
      ensures v == Head(old(rx)) && rx == Tail(old(rx)) && trace == old(trace)
    {
      v := Head(rx);
      rx := Tail(rx);
    }

    /** spi_prep. */
    method SpiPrep() returns (ret: bv32)
      modifies this
      ensures ret == PrepValue(cs)
      ensures trace == old(trace) + [W(SFCSR, DESELECT)] && rx == old(rx)
    {
      var init := (SFCSR_CSB0 | SFCSR_CSB1) & SFCSR_LEN_MASK;
      WriteRegister(SFCSR, init);
      if cs == 0 {
        ret := SFCSR_LEN1 | SFCSR_CSB1;
      } else {
        ret := SFCSR_LEN1 | SFCSR_CSB0 | SFCSR_CS;
      }
    }

    /** The command and address phases. */
    method SendCmdAddr(base: bv32, opcode: bv8, from: nat)
      modifies this
      ensures trace == old(trace) + CmdAddrWrites(base, opcode, from, addrWidth) && rx == old(rx)
    {
      var addrBits: bv32;
      var addr: nat := from;
      if addrWidth == 4 {
        addrBits := 0x03;
      } else {
        addrBits := 0x02;
        addr := addr * 0x100;
      }
      WriteRegister(SFCSR, base | SFCSR_LEN1);
      WriteRegister(SFDR, OpWord(opcode));
      WriteRegister(SFCSR, base | (addrBits << 28));
      var word := addr % 0x1_0000_0000;
      assert word == AddrValue(from, addrWidth);
      WriteRegister(SFDR, word as bv32);
    }

    /** Single-byte reads of SFDR, len of them: the loop of read_reg and the tail of read. */
    method ReadBytes(len: nat) returns (buf: seq<bv8>)
      modifies this
      ensures buf == TopBytes(old(rx), len) && rx == Drop(old(rx), len) && trace == old(trace)
    {
      buf := [];
      var left := len;
      while left > 0
        invariant 0 <= left <= len
        invariant buf == TopBytes(old(rx), len - left) && rx == Drop(old(rx), len - left) && trace == old(trace)
      {
        var v := ReadSfdr();
        DropStep(old(rx), len - left);
        buf := buf + [ByteOf(v, 0)];
        left := left - 1;
      }
    }

    /** rtl8380_nor_read_reg: a one-byte command, then len single-byte reads. */
    method ReadReg(opcode: bv8, len: nat) returns (ret: int, buf: seq<bv8>)
      modifies this
      ensures ret == 0 && buf == TopBytes(old(rx), len) && rx == Drop(old(rx), len)
      ensures trace == old(trace) +
        [W(SFCSR, DESELECT), W(SFCSR, PrepValue(cs) & (SFCSR_LEN_MASK | SFCSR_LEN1)), W(SFDR, OpWord(opcode))]
    {
      var sfcsr := SpiPrep();
      sfcsr := sfcsr & (SFCSR_LEN_MASK | SFCSR_LEN1);
      WriteRegister(SFCSR, sfcsr);
      WriteRegister(SFDR, OpWord(opcode));
      buf := ReadBytes(len);
      ret := 0;
    }

    /** The length switch of rtl8380_nor_write_reg: the opcode in the top byte, then up to two argument bytes. */
    static method PackCommand(opcode: bv8, buf: seq<bv8>) returns (sfdr: bv32, lenBits: bv32)
      requires |buf| <= 2
      ensures sfdr == RegWord(opcode, buf) && lenBits == RegLenBits(|buf|)
    {
      sfdr := OpWord(opcode);
      if |buf| == 0 {
        lenBits := SFCSR_LEN1;
      } else if |buf| == 1 {
        sfdr := sfdr | ((buf[0] as bv32) << 16);
        lenBits := SFCSR_LEN2;
      } else {
        sfdr := sfdr | ((buf[0] as bv32) << 16);
        sfdr := sfdr | ((buf[1] as bv32) << 8);
        lenBits := SFCSR_LEN3;
      }
    }

    /** rtl8380_nor_write_reg: a command of at most three bytes in one SFDR word; longer ones are refused after the deselect. */
    method WriteReg(opcode: bv8, buf: seq<bv8>) returns (ret: int)
      modifies this
      ensures rx == old(rx)
      ensures |buf| > 2 ==> ret == -EINVAL && trace == old(trace) + [W(SFCSR, DESELECT)]
      ensures |buf| <= 2 ==> (ret == 0 &&
        trace == old(trace) + [W(SFCSR, DESELECT), W(SFCSR, PrepValue(cs) | RegLenBits(|buf|)), W(SFDR, RegWord(opcode, buf))])
    {
      var sfcsr := SpiPrep();
      if |buf| > 2 {
        return -EINVAL;
      }
      var sfdr, lenBits := PackCommand(opcode, buf);
      sfcsr := sfcsr | lenBits;
      WriteRegister(SFCSR, sfcsr);
      WriteRegister(SFDR, sfdr);
      ret := 0;
    }

    /** The dummy-cycle loop of read: n one-byte transfers of 0. */
    method SendDummies(base: bv32, n: nat)
      modifies this
      ensures trace == old(trace) + DummyWrites(base, n) && rx == old(rx)
    {
      var i := 0;
      while i < n
        invariant 0 <= i <= n
        invariant trace == old(trace) + DummyWrites(base, i) && rx == old(rx)
      {
        WriteRegister(SFCSR, base);
        WriteRegister(SFDR, 0);
        i := i + 1;
      }
    }

    /** The 4-byte loop of read: while at least four bytes are left, store one SFDR word. */
    method ReadWords(len: nat) returns (buf: seq<bv8>, left: nat, ret: nat)
      modifies this
      ensures left == len % 4 && ret + left == len
      ensures buf == WordBytes(old(rx), len / 4) && rx == Drop(old(rx), len / 4) && trace == old(trace)
    {
      left := len;
      ret := 0;
      buf := [];
      var words := 0;
      while left >= 4
        invariant left + ret == len && ret == 4 * words
        invariant buf == WordBytes(old(rx), words) && rx == Drop(old(rx), words) && trace == old(trace)
      {
        var v := ReadSfdr();
        DropStep(old(rx), words);
        buf := buf + Bytes(v);
        left := left - 4;
        ret := ret + 4;
        words := words + 1;
      }
    }

    /** rtl8380_nor_read: command, address, dummy bytes, then len / 4 word reads and len % 4 byte reads. */
    method Read(from: nat, len: nat, opcode: bv8, readDummy: nat) returns (ret: int, buf: seq<bv8>)
      modifies this
      ensures ret == len && buf == ReadData(old(rx), len)
      ensures rx == Drop(Drop(old(rx), len / 4), len % 4)
      ensures trace == old(trace) + ReadTrace(cs, opcode, from, addrWidth, readDummy)
    {
      ghost var t0 := trace;
      var sfcsr := SpiPrep();
      sfcsr := sfcsr & SFCSR_LEN_MASK;
      SendCmdAddr(sfcsr, opcode, from);
      SendDummies(sfcsr, readDummy / 8);
      WriteRegister(SFCSR, sfcsr | SFCSR_LEN4);
      ghost var t1 := trace;
      assert t1 == t0 + ([W(SFCSR, DESELECT)] + CmdAddrWrites(sfcsr, opcode, from, addrWidth) +
        DummyWrites(sfcsr, readDummy / 8) + [W(SFCSR, sfcsr | SFCSR_LEN4)]);
      var words, left, done := ReadWords(len);
      WriteRegister(SFCSR, sfcsr | SFCSR_LEN1);
      assert trace == t1 + [W(SFCSR, sfcsr | SFCSR_LEN1)];
      var rest := ReadBytes(left);
      buf := words + rest;
      ret := done + left;
    }

    /** The 4-byte loop of write: while at least four bytes are left, write them packed as one word. */
    method WriteWords(buf: seq<bv8>) returns (p: nat)
      modifies this
      ensures p == |buf| / 4 * 4 && |buf| - p == |buf| % 4
      ensures trace == old(trace) + SfdrWrites(WordValues(buf, |buf| / 4)) && rx == old(rx)
    {
      var left := |buf|;
      p := 0;
      var words := 0;
      while left >= 4
        invariant left + p == |buf| && p == 4 * words && left >= 0
        invariant trace == old(trace) + SfdrWrites(WordValues(buf, words)) && rx == old(rx)
      {
        SfdrWritesSnoc(WordValues(buf, words), Pack(buf[p], buf[p + 1], buf[p + 2], buf[p + 3]));
        WriteRegister(SFDR, Pack(buf[p], buf[p + 1], buf[p + 2], buf[p + 3]));
        p := p + 4;
        left := left - 4;
        words := words + 1;
      }
      assert words == |buf| / 4;
    }

    /** The tail loop of write: the remaining bytes from p on, one per transfer. */
    method WriteBytes(buf: seq<bv8>, p: nat)
      requires p <= |buf|
      modifies this
      ensures trace == old(trace) + SfdrWrites(ByteValues(buf, p, |buf| - p)) && rx == old(rx)
    {
      var left := |buf| - p;
      var k := 0;
      while left > 0
        invariant left >= 0 && left + k == |buf| - p
        invariant trace == old(trace) + SfdrWrites(ByteValues(buf, p, k)) && rx == old(rx)
      {
        SfdrWritesSnoc(ByteValues(buf, p, k), (buf[p + k] as bv32) << 24);
        WriteRegister(SFDR, (buf[p + k] as bv32) << 24);
        left := left - 1;
        k := k + 1;
      }
    }

    /** rtl8380_nor_write: command, address, then |buf| / 4 word writes and |buf| % 4 byte writes. */
    method Write(to: nat, buf: seq<bv8>, opcode: bv8) returns (ret: int)
      modifies this
      ensures ret == |buf| && rx == old(rx)
      ensures trace == old(trace) + WriteTrace(cs, opcode, to, addrWidth, buf)
    {
      ghost var t0 := trace;
      var sfcsr := SpiPrep();
      sfcsr := sfcsr & SFCSR_LEN_MASK;
      SendCmdAddr(sfcsr, opcode, to);
      WriteRegister(SFCSR, sfcsr | SFCSR_LEN4);
      ghost var t1 := trace;
      ghost var head := [W(SFCSR, DESELECT)] + CmdAddrWrites(sfcsr, opcode, to, addrWidth) + [W(SFCSR, sfcsr | SFCSR_LEN4)];
      assert t1 == t0 + head;
      var p := WriteWords(buf);
      ghost var words := SfdrWrites(WordValues(buf, |buf| / 4));
      WriteRegister(SFCSR, sfcsr | SFCSR_LEN1);
      WriteBytes(buf, p);
      ghost var bytes := SfdrWrites(ByteValues(buf, |buf| / 4 * 4, |buf| % 4));
      assert trace == t1 + words + [W(SFCSR, sfcsr | SFCSR_LEN1)] + bytes;
      AppendAssoc(t0, head, words, [W(SFCSR, sfcsr | SFCSR_LEN1)], bytes);
      assert sfcsr == Base(cs);
      ret := |buf|;
    }

    /** rtl8380_erase: the erase command and the address, nothing more. */
    method Erase(offset: nat, opcode: bv8) returns (ret: int)
      modifies this
      ensures ret == 0 && rx == old(rx)
      ensures trace == old(trace) + [W(SFCSR, DESELECT)] + CmdAddrWrites(PrepValue(cs), opcode, offset, addrWidth)
    {
      var sfcsr := SpiPrep();
      SendCmdAddr(sfcsr, opcode, offset);
      ret := 0;
    }
  }

  /**
   * write_reg sends the opcode and then the |buf| data bytes, most
   * significant first, in one transfer of |buf| + 1 bytes.
   */
  lemma WriteRegEncodes(cs: bv32, opcode: bv8, buf: seq<bv8>)
    requires |buf| <= 2
    ensures Bytes(RegWord(opcode, buf))[..|buf| + 1] == [opcode] + buf
    ensures LenField(PrepValue(cs) | RegLenBits(|buf|)) as int == |buf|
  {
    if |buf| == 0 {
      OneByte(opcode);
    } else if |buf| == 1 {
      TwoBytes(opcode, buf[0]);
      assert buf == [buf[0]];
    } else {
      ThreeBytes(opcode, buf[0], buf[1]);
      assert buf == [buf[0], buf[1]];
    }
    RegLength(cs, |buf|);
  }

  lemma OneByte(a: bv8)
    ensures Bytes(RegWord(a, [])) == [a, 0, 0, 0]
  {
  }

  lemma TwoBytes(a: bv8, b: bv8)
    ensures Bytes(RegWord(a, [b])) == [a, b, 0, 0]
  {
  }

  lemma ThreeBytes(a: bv8, b: bv8, c: bv8)
    ensures Bytes(RegWord(a, [b, c])) == [a, b, c, 0]
  {
  }

  lemma RegLength(cs: bv32, n: nat)
    requires n <= 2
    ensures LenField(PrepValue(cs) | RegLenBits(n)) as int == n
  {
  }

  /** read_reg masks the length field off spi_prep's value, which had it at one byte already. */
  lemma ReadRegOneByte(cs: bv32)
    ensures PrepValue(cs) & (SFCSR_LEN_MASK | SFCSR_LEN1) == PrepValue(cs)
    ensures LenField(PrepValue(cs) & (SFCSR_LEN_MASK | SFCSR_LEN1)) == 0
  {
  }

  /** Erase does not mask spi_prep's value, but sends the same control words as read and write would. */
  lemma EraseSameControl(cs: bv32, opcode: bv8, offset: nat, addrWidth: nat)
    ensures CmdAddrWrites(PrepValue(cs), opcode, offset, addrWidth) ==
      CmdAddrWrites(Base(cs), opcode, offset, addrWidth)
  {
    PrepSelects(cs);
  }

  /** A byte sent alone travels in the top byte of SFDR. */
  lemma TopByteOf(b: bv8)
    ensures ByteOf((b as bv32) << 24, 0) == b
  {
  }

  lemma {:induction false} WordValuesAt(buf: seq<bv8>, n: nat, j: nat)
    requires 4 * n <= |buf| && j < n
    ensures WordValues(buf, n)[j] == Pack(buf[4 * j], buf[4 * j + 1], buf[4 * j + 2], buf[4 * j + 3])
  {
    if j < n - 1 {
      WordValuesAt(buf, n - 1, j);
    }
  }

  lemma {:induction false} ByteValuesAt(buf: seq<bv8>, k: nat, m: nat, i: nat)
    requires k + m <= |buf| && i < m
    ensures ByteValues(buf, k, m)[i] == (buf[k + i] as bv32) << 24
  {
    if i < m - 1 {
      ByteValuesAt(buf, k, m - 1, i);
    }
  }

  /** The j-th word write sends bytes 4j to 4j+3 of buf. */
  lemma WordChunk(buf: seq<bv8>, n: nat, j: nat)
    requires 4 * n <= |buf| && j < n
    ensures Bytes(WordValues(buf, n)[j]) == buf[4 * j..4 * j + 4]
  {
    WordValuesAt(buf, n, j);
    PackBytes(buf[4 * j], buf[4 * j + 1], buf[4 * j + 2], buf[4 * j + 3]);
  }

  /** The i-th single-byte write sends byte k+i of buf in its top byte. */
  lemma ByteChunk(buf: seq<bv8>, k: nat, m: nat, i: nat)
    requires k + m <= |buf| && i < m
    ensures ByteOf(ByteValues(buf, k, m)[i], 0) == buf[k + i]
  {
    ByteValuesAt(buf, k, m, i);
    TopByteOf(buf[k + i]);
  }

  /** Word reads give back any bytes that each read's word matches, four at a time. */
  lemma {:induction false} WordBytesMatch(rx: seq<bv32>, out: seq<bv8>, n: nat)
    requires 4 * n <= |out|
    requires forall j :: 0 <= j < n ==> Bytes(Head(Drop(rx, j))) == out[4 * j..4 * j + 4]
    ensures WordBytes(rx, n) == out[..4 * n]
  {
    if n > 0 {
      WordBytesMatch(rx, out, n - 1);
      assert out[..4 * n] == out[..4 * (n - 1)] + out[4 * (n - 1)..4 * n];
    }
  }

  /** The j-th word read of that stream takes in bytes 4j to 4j+3 of buf. */
  lemma WordRead(rx: seq<bv32>, buf: seq<bv8>, nn: nat, j: nat)
    requires 4 * nn <= |buf| && j < nn && WordValues(buf, nn) <= rx
    ensures Bytes(Head(Drop(rx, j))) == buf[4 * j..4 * j + 4]
  {
    ReadOfPrefix(WordValues(buf, nn), rx, j);
    WordChunk(buf, nn, j);
  }

  /** Word reads of a stream that starts with the word writes of buf give those bytes back. */
  lemma WordBytesOfPacked(rx: seq<bv32>, buf: seq<bv8>, nn: nat, n: nat)
    requires 4 * nn <= |buf| && n <= nn && WordValues(buf, nn) <= rx
    ensures WordBytes(rx, n) == buf[..4 * n]
  {
    forall j | 0 <= j < n
      ensures Bytes(Head(Drop(rx, j))) == buf[4 * j..4 * j + 4]
    {
      WordRead(rx, buf, nn, j);
    }
    WordBytesMatch(rx, buf, n);
  }

  /** The i-th read of a stream that starts with vs returns vs[i]. */
  lemma ReadOfPrefix(vs: seq<bv32>, rx: seq<bv32>, i: nat)
    requires vs <= rx && i < |vs|
    ensures Head(Drop(rx, i)) == vs[i]
  {
  }

  /** The i-th single-byte read of that stream takes in byte k+i of buf. */
  lemma TopByteRead(rx: seq<bv32>, buf: seq<bv8>, k: nat, mm: nat, i: nat)
    requires k + mm <= |buf| && i < mm && ByteValues(buf, k, mm) <= rx
    ensures ByteOf(Head(Drop(rx, i)), 0) == buf[k + i]
  {
    ReadOfPrefix(ByteValues(buf, k, mm), rx, i);
    ByteChunk(buf, k, mm, i);
  }

  /** Byte reads give back any bytes that each read's top byte matches. */
  lemma {:induction false} TopBytesMatch(rx: seq<bv32>, out: seq<bv8>, m: nat)
    requires m <= |out|
    requires forall i :: 0 <= i < m ==> ByteOf(Head(Drop(rx, i)), 0) == out[i]
    ensures TopBytes(rx, m) == out[..m]
  {
    if m > 0 {
      TopBytesMatch(rx, out, m - 1);
      assert out[..m] == out[..m - 1] + [out[m - 1]];
    }
  }

  /** Byte reads of a stream that starts with the single-byte writes of buf[k..] give those bytes back. */
  lemma TopBytesOfShifted(rx: seq<bv32>, buf: seq<bv8>, k: nat, mm: nat, m: nat)
    requires k + mm <= |buf| && m <= mm && ByteValues(buf, k, mm) <= rx
    ensures TopBytes(rx, m) == buf[k..k + m]
  {
    ghost var out := buf[k..k + m];
    forall i | 0 <= i < m
      ensures ByteOf(Head(Drop(rx, i)), 0) == out[i]
    {
      TopByteRead(rx, buf, k, mm, i);
    }
    TopBytesMatch(rx, out, m);
  }

  /**
   * What write sends is what read takes in: were the flash to return on
   * SFDR the data values rtl8380_nor_write wrote for buf, one per
   * transfer, rtl8380_nor_read of |buf| bytes would store exactly buf.
   * Every byte goes out once, in order, whatever |buf| % 4 is.
   */
  lemma WriteReadRoundTrip(buf: seq<bv8>)
    ensures var q := |buf| / 4;
      ReadData(WordValues(buf, q) + ByteValues(buf, q * 4, |buf| % 4), |buf|) == buf
  {
    var q := |buf| / 4;
    var r := |buf| % 4;
    var k := q * 4;
    assert k == 4 * q && k + r == |buf|;
    var tail := ByteValues(buf, k, r);
    var rx := WordValues(buf, q) + tail;
    assert Drop(rx, q) == tail;
    RoundTripSplit(buf, q, r);
  }

  /** The round trip with the length split into q words and r single bytes. */
  lemma RoundTripSplit(buf: seq<bv8>, q: nat, r: nat)
    requires 4 * q + r == |buf|
    ensures WordBytes(WordValues(buf, q) + ByteValues(buf, 4 * q, r), q) + TopBytes(ByteValues(buf, 4 * q, r), r) == buf
  {
    assert buf == buf[..4 * q] + buf[4 * q..];
    var tail := ByteValues(buf, 4 * q, r);
    var rx := WordValues(buf, q) + tail;
    WordBytesOfPacked(rx, buf, q, q);
    TopBytesOfShifted(tail, buf, 4 * q, r, r);
  }
}
