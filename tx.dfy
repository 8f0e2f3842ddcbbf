/*
 * The transmit path (rtl83xx_eth_tx): a DSA trailer is recognised and
 * stripped, the frame is padded to the Ethernet minimum and given room
 * for the FCS the switch expects, and the TX slot under ring 0's cursor
 * is handed to the switch with its CPU tag.
 */
module Tx {
  import opened Mmio
  import opened EthDefs
  import opened Ring
  import opened Soc
  import opened Bits
  import opened Netdev

  /** ETH_ZLEN: the shortest Ethernet frame, FCS not counted. */
  const ETH_ZLEN: nat := 60
  /** Room for the FCS: the switch expects frames to include it. */
  const FCS_LEN: nat := 4

  /** The DSA tagger's four-byte trailer: 0x80, a port between 1 and 27, 0x10, 0x00. */
  predicate IsTxTrailer(t: seq<bv8>)
    requires |t| == 4
  {
    t[0] == 0x80 && 0 < t[1] < 28 && t[2] == 0x10 && t[3] == 0x00
  }

  /**
   * The destination port the transmit path finds: under DSA, the port of a
   * trailer ending the frame; -1 when there is none.
   */
  function DestPort(data: seq<bv8>, dsa: bool): int
    requires dsa ==> |data| >= 4
  {
    if dsa && IsTxTrailer(data[|data| - 4..]) then data[|data| - 3] as int else -1
  }

  /** A port is found only under DSA, only from a trailer, and it is that trailer's port. */
  lemma DestPortFound(data: seq<bv8>, dsa: bool)
    requires dsa ==> |data| >= 4
    ensures DestPort(data, dsa) == -1 || 0 < DestPort(data, dsa) < 28
    ensures DestPort(data, dsa) > 0 <==> dsa && IsTxTrailer(data[|data| - 4..])
    ensures DestPort(data, dsa) > 0 ==> DestPort(data, dsa) == data[|data| - 3] as int
  {
  }

  /**
   * The length handed to the switch: the trailer is dropped, the frame is
   * padded to ETH_ZLEN, and four bytes are added for the FCS.
   */
  function FrameLen(data: seq<bv8>, dsa: bool): nat
    requires dsa ==> |data| >= 4
  {
    var len := if DestPort(data, dsa) > 0 then |data| - 4 else |data|;
    (if len < ETH_ZLEN then ETH_ZLEN else len) + FCS_LEN
  }

  /**
   * Every frame goes out with at least 64 bytes, and none of the frame's
   * own bytes is cut: a stripped trailer's four bytes become the FCS slot.
   * A long untagged frame grows by exactly the FCS; a long tagged frame
   * keeps its length.
   */
  lemma FrameLenBounds(data: seq<bv8>, dsa: bool)
    requires dsa ==> |data| >= 4
    ensures FrameLen(data, dsa) >= ETH_ZLEN + FCS_LEN
    ensures FrameLen(data, dsa) >= |data|
    ensures DestPort(data, dsa) <= 0 && |data| >= ETH_ZLEN ==> FrameLen(data, dsa) == |data| + FCS_LEN
    ensures DestPort(data, dsa) > 0 && |data| >= ETH_ZLEN + 4 ==> FrameLen(data, dsa) == |data|
  {
  }

  /** 2^n. */
  function Pow2(n: nat): nat
  {
    if n == 0 then 1 else 2 * Pow2(n - 1)
  }

  /** Doubling is monotone. */
  lemma {:induction false} Pow2Mono(n: nat, m: nat)
    requires n <= m
    ensures 1 <= Pow2(n) <= Pow2(m)
    decreases m
  {
    if n < m {
      Pow2Mono(n, m - 1);
    } else if n > 0 {
      Pow2Mono(n - 1, n - 1);
    }
  }

  /** Distinct ports have distinct port masks. */
  lemma {:induction false} Pow2Injective(n: nat, m: nat)
    requires Pow2(n) == Pow2(m)
    ensures n == m
    decreases n + m
  {
    if n > 0 && m > 0 {
      Pow2Injective(n - 1, m - 1);
    } else if n > 0 {
      Pow2Mono(1, n);
    } else if m > 0 {
      Pow2Mono(1, m);
    }
  }

  /** Exponents add. */
  lemma {:induction false} Pow2Add(a: nat, b: nat)
    ensures Pow2(a + b) == Pow2(a) * Pow2(b)
  {
    if a > 0 {
      Pow2Add(a - 1, b);
    }
  }

  /** The port mask of any port the trailer can name fits in 28 bits. */
  lemma PortMaskFits(p: nat)
    requires p < 28
    ensures Pow2(p) <= 0x800_0000
  {
    Pow2Mono(p, 27);
    Pow2Add(12, 15);
    Pow2Add(12, 3);
    assert Pow2(12) == 4096 && Pow2(3) == 8;
  }

  /**
   * The CPU tag of a transmitted frame: for a destination port p > 0 the
   * words 0x0400, 0x0200, 0 and the port mask 1 << p split into its high
   * and low 16 bits; all zero otherwise.
   */
  function TxCpuTag(p: int): CpuTag
    requires p == -1 || 0 < p < 28
  {
    if p > 0 then
      PortMaskFits(p);
      [0x0400, 0x0200, 0, Pow2(p) / 0x1_0000, Pow2(p) % 0x1_0000]
    else [0, 0, 0, 0, 0]
  }

  /**
   * The two mask words of a directed frame's CPU tag put back together
   * give 1 << p, and name no other port; an undirected frame's tag names
   * no port at all.
   */
  lemma TxCpuTagNamesPort(p: int, q: nat)
    requires p == -1 || 0 < p < 28
    ensures var t := TxCpuTag(p); var mask := t[3] as int * 0x1_0000 + t[4] as int;
      (p > 0 ==> t[0] == 0x0400 && t[1] == 0x0200 && mask == Pow2(p)) &&
      (p > 0 && mask == Pow2(q) ==> q == p) &&
      (p <= 0 ==> mask == 0 && t[0] == 0)
  {
    var t := TxCpuTag(p);
    if p > 0 {
      assert t[3] as int * 0x1_0000 + t[4] as int == Pow2(p);
      if Pow2(q) == Pow2(p) {
        Pow2Injective(q, p);
      }
    }
  }

  /** The bytes copied to the switch: the frame zero-padded to len bytes (skb_padto). */
  function Padded(data: seq<bv8>, len: nat): seq<bv8>
    requires |data| <= len
  {
    data + seq(len - |data|, _ => 0)
  }

  /** Padding keeps the frame as its prefix, fills the rest with zeros and has exactly len bytes. */
  lemma PaddedContents(data: seq<bv8>, len: nat)
    requires |data| <= len
    ensures |Padded(data, len)| == len && Padded(data, len)[..|data|] == data
    ensures forall i :: |data| <= i < len ==> Padded(data, len)[i] == 0
  {
  }

  /**
   * The header of a transmitted slot: the buffer is the start of tx_space,
   * size and length are the frame length (16-bit fields), and the CPU tag
   * names the destination port.
   */
  function TxHeader(h: Header, len: nat, p: int): Header
    requires p == -1 || 0 < p < 28
  {
    h.(buf := 0, size := len % 0x1_0000, len := len % 0x1_0000, cpuTag := TxCpuTag(p))
  }

  /** The outcome of rtl83xx_eth_tx: NETDEV_TX_OK or NETDEV_TX_BUSY. */
  datatype TxResult = TxOk | TxBusy

  /** memcpy of the padded frame to the start of tx_space. */
  method CopyFrame(dst: array<bv8>, src: seq<bv8>)
    requires |src| <= dst.Length
    modifies dst
    ensures dst[..|src|] == src && dst[|src|..] == old(dst[|src|..])
  {
    var i := 0;
    while i < |src|
      invariant 0 <= i <= |src|
      invariant dst[..i] == src[..i] && dst[|src|..] == old(dst[|src|..])
    {
      dst[i] := src[i];
      i := i + 1;
    }
  }

  /**
   * The length computation at the start of rtl83xx_eth_tx: look for the
   * DSA trailer, strip it, pad to ETH_ZLEN, add the FCS.
   */
  method TxLength(data: seq<bv8>, dsa: bool) returns (len: nat, destPort: int)
    requires dsa ==> |data| >= 4
    ensures len == FrameLen(data, dsa) && destPort == DestPort(data, dsa)
  {
    len := |data|;
    destPort := -1;
    if dsa && IsTxTrailer(data[len - 4..]) {
      destPort := data[len - 3] as int;
      len := len - 4;
    }
    if len < ETH_ZLEN {
      len := ETH_ZLEN;
    }
    len := len + FCS_LEN;
  }

  /** The slot's header gets the frame's length, size and CPU tag, and the slot goes to the switch. */
  method FillSlot(rs: RingSet, k: nat, len: nat, destPort: int)
    requires rs.Shape() && k < TX_SLOTS
    requires destPort == -1 || 0 < destPort < 28
    modifies rs.txR, rs.txHdr
    ensures rs.txR[..] == old(rs.txR[..])[k := OrOwn(old(rs.txR[k]))]
    ensures rs.txHdr[..] == old(rs.txHdr[..])[k := TxHeader(old(rs.txHdr[k]), len, destPort)]
  {
    rs.txHdr[k] := TxHeader(rs.txHdr[k], len, destPort);
    rs.txR[k] := OrOwn(rs.txR[k]);
  }

  /**
   * The CPU owns the slot under ring 0's cursor: the padded frame goes to
   * tx_space, the slot's header gets length, size and CPU tag, the slot is
   * handed to the switch, TX fetch is triggered, the counters grow and
   * ring 0's cursor advances.
   */
  method HandOver(rf: RegFile, L: Layout, rs: RingSet, st: NetStats, frame: seq<bv8>, destPort: int)
    requires rs.Shape() && |frame| <= TX_SPACE_SIZE
    requires destPort == -1 || 0 < destPort < 28
    modifies rf, rs, rs.txR, rs.txHdr, rs.txSpace, st
    ensures var c := old(rs.cTx[0]);
      var k := TxIx(0, c);
      && rs.txR[..] == old(rs.txR[..])[k := OrOwn(old(rs.txR[k]))]
      && rs.txHdr[..] == old(rs.txHdr[..])[k := TxHeader(old(rs.txHdr[k]), |frame|, destPort)]
      && rs.cTx == old(rs.cTx)[0 := (c + 1) % TX_RING_LEN] && rs.cRx == old(rs.cRx)
    ensures rs.txSpace[..|frame|] == frame && rs.txSpace[|frame|..] == old(rs.txSpace[|frame|..])
    ensures st.txPackets == old(st.txPackets) + 1 && st.txBytes == old(st.txBytes) + |frame|
    ensures st.rxPackets == old(st.rxPackets) && st.rxBytes == old(st.rxBytes)
    ensures rf.regs == old(rf.regs)[L.dmaIfCtrl := Toggle(old(rf.Read(L.dmaIfCtrl)), L.txFetch, true)]
    ensures rf.trace == old(rf.trace) + [W(L.dmaIfCtrl, Toggle(old(rf.Read(L.dmaIfCtrl)), L.txFetch, true))]
  {
    var c := rs.cTx[0];
    FillSlot(rs, TxIx(0, c), |frame|, destPort);
    CopyFrame(rs.txSpace, frame);
    DmaIfFetch(rf, L, true);
    st.txPackets := st.txPackets + 1;
    st.txBytes := st.txBytes + |frame|;
    rs.cTx := rs.cTx[0 := (c + 1) % TX_RING_LEN];
  }

  /**
   * rtl83xx_eth_tx.  padFails stands for skb_padto failing to allocate,
   * after which the frame is dropped with NETDEV_TX_OK.  Otherwise, when
   * the switch still owns the slot under ring 0's cursor the result is
   * NETDEV_TX_BUSY and nothing changes; when the CPU owns it, the frame
   * padded to FrameLen is handed over (HandOver).
   */
  method EthTx(rf: RegFile, L: Layout, rs: RingSet, st: NetStats, data: seq<bv8>, dsa: bool, padFails: bool)
    returns (ret: TxResult)
    requires rs.Shape()
    requires dsa ==> |data| >= 4
    requires FrameLen(data, dsa) <= TX_SPACE_SIZE
    modifies rf, rs, rs.txR, rs.txHdr, rs.txSpace, st
    ensures ret == TxBusy <==> !padFails && Owned(old(rs.txR[TxIx(0, rs.cTx[0])]))
    ensures padFails || ret == TxBusy ==>
      unchanged(rf, rs, rs.txR, rs.txHdr, rs.txSpace, st)
    ensures !padFails && ret == TxOk ==>
      var c := old(rs.cTx[0]);
      var k := TxIx(0, c);
      var len := FrameLen(data, dsa);
      && rs.txR[..] == old(rs.txR[..])[k := OrOwn(old(rs.txR[k]))]
      && rs.txHdr[..] == old(rs.txHdr[..])[k := TxHeader(old(rs.txHdr[k]), len, DestPort(data, dsa))]
      && rs.txSpace[..len] == Padded(data, len) && rs.txSpace[len..] == old(rs.txSpace[len..])
      && rs.cTx == old(rs.cTx)[0 := (c + 1) % TX_RING_LEN] && rs.cRx == old(rs.cRx)
      && st.txPackets == old(st.txPackets) + 1 && st.txBytes == old(st.txBytes) + len
      && st.rxPackets == old(st.rxPackets) && st.rxBytes == old(st.rxBytes)
      && rf.regs == old(rf.regs)[L.dmaIfCtrl := Toggle(old(rf.Read(L.dmaIfCtrl)), L.txFetch, true)]
      && rf.trace == old(rf.trace) + [W(L.dmaIfCtrl, Toggle(old(rf.Read(L.dmaIfCtrl)), L.txFetch, true))]
  {
    var len, destPort := TxLength(data, dsa);
    if padFails {
      return TxOk;
    }
    if Owned(rs.txR[TxIx(0, rs.cTx[0])]) {
      return TxBusy;
    }
    FrameLenBounds(data, dsa);
    HandOver(rf, L, rs, st, Padded(data, len), destPort);
    ret := TxOk;
  }
}
