/*
 * Constants and memory layout shared by the RTL83xx CPU-port Ethernet
 * driver: ring geometry, the descriptor word flags, the packet header
 * record and the byte layout of the ring set.
 *
 * Physical addresses are modelled as byte offsets inside the ring-set
 * allocation (taken to start at physical address 0, as a page-aligned
 * coherent allocation does modulo its base); buffer addresses are byte
 * offsets inside rx_space / tx_space.
 */
module EthDefs {

  const RX_NUM_RINGS: nat := 2
  const RX_RING_LEN: nat := 300
  const TX_NUM_RINGS: nat := 2
  const TX_RING_LEN: nat := 160
  const FRAMEBUF_SIZE: nat := 1600

  /** Number of RX / TX descriptors over all rings. */
  const RX_SLOTS: nat := 600
  const TX_SLOTS: nat := 320

  /** The rx_space / tx_space byte arrays of the ring set. */
  const RX_SPACE_SIZE: nat := 960000
  const TX_SPACE_SIZE: nat := 256000

  const CPU_PORT_838X: nat := 28
  const CPU_PORT_839X: nat := 52

  /** Descriptor word flags: the owner bit (set = owned by the switch) and WRAP. */
  const OWN: nat := 0x1
  const WRAP: nat := 0x2

  /** The hardware's documented limits: up to 8 RX rings, RX rings of at least 200. */
  const HW_MAX_RX_RINGS: nat := 8
  const HW_MAX_TX_RINGS: nat := 2
  const MIN_RX_RING_LEN: nat := 200

  /** Ring numbers and slot numbers within a ring. */
  type RxRing = r: nat | r < RX_NUM_RINGS
  type TxRing = r: nat | r < TX_NUM_RINGS
  type RxSlot = j: nat | j < RX_RING_LEN
  type TxSlot = j: nat | j < TX_RING_LEN

  type u16 = x: int | 0 <= x < 0x1_0000
  type u8 = x: int | 0 <= x < 0x100

  /** The five 16-bit CPU-tag words of a packet header. */
  type CpuTag = s: seq<u16> | |s| == 5 witness [0, 0, 0, 0, 0]

  /** struct p_hdr; `buf` is a byte offset into rx_space or tx_space. */
  datatype Header = Header(
    buf: nat,
    reserved: u16,
    size: u16,
    offset: u16,
    len: u16,
    reserved2: u16,
    cpuTag: CpuTag)

  const ZERO_HEADER := Header(0, 0, 0, 0, 0, 0, [0, 0, 0, 0, 0])

  /** Row-major index of rx_r[r][j] / rx_header[r][j] (C lays 2-D arrays out this way). */
  function RxIx(r: nat, j: nat): nat { r * 300 + j }
  function TxIx(r: nat, j: nat): nat { r * 160 + j }

  /** Byte offsets of the ring-set members: rx_r, tx_r, rx_header, tx_header. */
  const TX_R_OFF: nat := 2400          // 600 descriptor words
  const RX_HDR_OFF: nat := 3680        // + 320 descriptor words
  const TX_HDR_OFF: nat := 18080       // + 600 headers of 24 bytes
  const HDR_BYTES: nat := 24           // packed p_hdr: pointer + 10 u16

  /** CPHYSADDR(&rx_r[..][..]) / CPHYSADDR(&tx_r[..][..]) for the flattened index k. */
  function RxDescAddr(k: nat): nat { 4 * k }
  function TxDescAddr(k: nat): nat { TX_R_OFF + 4 * k }

  /** CPHYSADDR(&rx_header[..][..]) / CPHYSADDR(&tx_header[..][..]): 24 bytes per header. */
  function RxHdrAddr(k: nat): nat { RX_HDR_OFF + HDR_BYTES * k }
  function TxHdrAddr(k: nat): nat { TX_HDR_OFF + HDR_BYTES * k }

  /**
   * A descriptor word: a 32-bit value holding the physical address of its
   * packet header (4-byte aligned) with the owner bit 0x1 (set: owned by
   * the switch) and WRAP 0x2 in the two low bits.  The driver only builds
   * such words, tests and sets the two flags, and compares addresses, so
   * the model keeps the three fields apart; Encode/Decode give the 32-bit
   * layout.
   */
  datatype Desc = Desc(addr: nat, wrap: bool, own: bool)

  const ZERO_DESC := Desc(0, false, false)

  /** The bare header address, both flags clear: CPHYSADDR(h). */
  function PlainWord(hdr: nat): Desc { Desc(hdr, false, false) }

  /** w & 0x1 */
  predicate Owned(w: Desc) { w.own }
  /** w & WRAP */
  predicate Wraps(w: Desc) { w.wrap }

  /** w | 0x1 and w | WRAP. */
  function OrOwn(w: Desc): Desc { w.(own := true) }
  function OrWrap(w: Desc): Desc { w.(wrap := true) }

  /** A descriptor word built from a header address and the two flags. */
  function DescWord(hdr: nat, own: bool, wrap: bool): Desc
  {
    var w := if own then OrOwn(PlainWord(hdr)) else PlainWord(hdr);
    if wrap then OrWrap(w) else w
  }

  /** The 32-bit value of a descriptor word: address | WRAP | owner bit. */
  function Encode(w: Desc): nat
  {
    w.addr + (if w.wrap then WRAP else 0) + (if w.own then OWN else 0)
  }

  /** Reading the fields back from a 32-bit value: w & ~0x3, w & WRAP, w & 0x1. */
  function Decode(x: nat): Desc
  {
    var low := x % 4;
    Desc(x - low, low >= 2, low == 1 || low == 3)
  }

  /**
   * With a 4-byte aligned header address the flags never collide with the
   * address: decoding the 32-bit value gives back the word.
   */
  lemma EncodeDecode(w: Desc)
    requires w.addr % 4 == 0
    ensures Decode(Encode(w)) == w
  {
    var low := (if w.wrap then WRAP else 0) + (if w.own then OWN else 0);
    assert Encode(w) == w.addr + low;
    assert (w.addr + low) % 4 == low;
  }

  /** Header addresses are 4-byte aligned: the ring set and the 24-byte stride both are. */
  lemma HdrAddrAligned(k: nat)
    ensures RxHdrAddr(k) % 4 == 0 && TxHdrAddr(k) % 4 == 0
  {
  }

  /**
   * Buffer offset given to slot j of ring i: the source multiplies ring and
   * slot numbers, so every slot of ring 0 and slot 0 of ring 1 share buffer 0.
   * Written as i additions of j buffers, which BufOffsetProduct shows is the
   * product, so that proofs about it stay linear.
   */
  function BufOffset(i: nat, j: nat): nat
  {
    if i == 0 then 0 else BufOffset(i - 1, j) + j * FRAMEBUF_SIZE
  }

  lemma {:induction false} BufOffsetProduct(i: nat, j: nat)
    ensures BufOffset(i, j) == i * j * FRAMEBUF_SIZE
  {
    if i > 0 {
      BufOffsetProduct(i - 1, j);
      calc {
        BufOffset(i, j);
        (i - 1) * j * FRAMEBUF_SIZE + j * FRAMEBUF_SIZE;
        { assert (i - 1) * j + j == i * j; }
        i * j * FRAMEBUF_SIZE;
      }
    }
  }

  /** The product offsets stay inside rx_space / tx_space, with room for a 16-bit length. */
  lemma BufOffsetsInside(i: nat, j: nat)
    ensures i < RX_NUM_RINGS && j < RX_RING_LEN ==> BufOffset(i, j) + 0x1_0000 <= RX_SPACE_SIZE
    ensures i < TX_NUM_RINGS && j < TX_RING_LEN ==> BufOffset(i, j) + FRAMEBUF_SIZE <= TX_SPACE_SIZE
  {
    if i == 1 {
      assert BufOffset(1, j) == j * FRAMEBUF_SIZE;
    }
  }

  /** The product aliases buffers: ring 0 uses buffer 0 for every slot. */
  lemma BufOffsetAliases(j: nat)
    ensures BufOffset(0, j) == 0 && BufOffset(1, 0) == 0
    ensures BufOffset(1, j) == j * FRAMEBUF_SIZE
  {
  }

  /** The flattened index addresses each (ring, slot) pair exactly once. */
  lemma RxIxInjective(r: nat, j: nat, r': nat, j': nat)
    requires j < RX_RING_LEN && j' < RX_RING_LEN
    ensures RxIx(r, j) == RxIx(r', j') <==> r == r' && j == j'
  {
  }

  /** RTL_TBL_DATA(reg_offset, idx): the idx-th data register of a table. */
  function TblData(regOffset: int, idx: nat): int { regOffset + idx * 4 }

  /** The table indices of enum rtl_table_idx. */
  const RTL838X_TBL_0: nat := 0
  const RTL838X_TBL_1: nat := 1
  const RTL838X_TBL_2: nat := 2
  const RTL838X_TBL_L2: nat := 3
  const RTL839X_TBL_0: nat := 4
  const RTL839X_TBL_1: nat := 5
  const RTL839X_TBL_2: nat := 6
  const RTL839X_TBL_L2: nat := 7
}
