/*
 * The receive path: rtl83xx_hw_receive walks one RX ring from the CPU's
 * cursor, delivering each frame the switch has filled and handing its slot
 * straight back, and rtl83xx_poll_rx shares the NAPI budget between the
 * two rings.  A delivered frame is returned as a byte sequence (what
 * netif_receive_skb is given).
 */
module Rx {
  import opened Mmio
  import opened EthDefs
  import opened Tables
  import opened Ring
  import opened Soc
  import opened Netdev
  import Tx

  /** The trailer written over the CRC under DSA: 0x80, the source port (low 5 bits of cpu_tag[0]), 0x10, 0x00. */
  function RxTrailer(tag0: u16): seq<bv8>
  {
    [0x80, (tag0 % 32) as bv8, 0x10, 0x00]
  }

  /** A header as the switch leaves it: buffer inside rx_space, length 0 (empty) or including the 4-byte CRC. */
  predicate HdrOk(h: Header, spaceLen: nat)
  {
    h.buf + 0x1_0000 <= spaceLen && (h.len == 0 || h.len >= 4)
  }

  /** Every RX header satisfies HdrOk. */
  predicate RxReady(v: RxState, space: seq<bv8>)
  {
    RxWellFormed(v) && |space| == RX_SPACE_SIZE &&
    forall k :: 0 <= k < RX_SLOTS ==> HdrOk(v.hdrs[k], |space|)
  }

  /**
   * The frame delivered for a filled header: the buffer's first len - 4
   * bytes (the CRC stripped); under DSA len bytes, the last four being the
   * trailer rebuilt from the CPU tag.
   */
  function Frame(space: seq<bv8>, h: Header, dsa: bool): seq<bv8>
    requires h.len >= 4 && h.buf + 0x1_0000 <= |space|
  {
    var len := if dsa then h.len else h.len - 4;
    var data := space[h.buf .. h.buf + len];
    if dsa then data[..len - 4] + RxTrailer(h.cpuTag[0]) else data
  }

  /**
   * A delivered frame is the received bytes without the CRC, followed
   * under DSA by the trailer; without DSA it is exactly those bytes.
   */
  lemma FrameContents(space: seq<bv8>, h: Header, dsa: bool)
    requires h.len >= 4 && h.buf + 0x1_0000 <= |space|
    ensures var f := Frame(space, h, dsa);
      f[..h.len - 4] == space[h.buf .. h.buf + h.len - 4] &&
      (dsa ==> f == space[h.buf .. h.buf + h.len - 4] + RxTrailer(h.cpuTag[0])) &&
      (!dsa ==> f == space[h.buf .. h.buf + h.len - 4])
  {
  }

  /**
   * The trailer the receive path rebuilds is one the transmit path
   * recognises: a frame received under DSA from source port p (1..27) and
   * sent back out is directed to port p; other tags give no port.
   */
  lemma FrameRoutesBack(space: seq<bv8>, h: Header)
    requires h.len >= 4 && h.buf + 0x1_0000 <= |space|
    ensures var p := h.cpuTag[0] % 32;
      Tx.DestPort(Frame(space, h, true), true) == if 0 < p < 28 then p else -1
  {
    var f := Frame(space, h, true);
    assert f[|f| - 4..] == RxTrailer(h.cpuTag[0]);
  }

  /**
   * How many frames rtl83xx_hw_receive takes from ring r once it is inside
   * its do-while, n taken so far: it stops at a switch-owned or empty slot
   * (and after a full turn, where the first slot is switch-owned again),
   * and after a frame when the cursor reached the hardware pointer `last`
   * or the budget is used up.
   */
  function RecvCount(v: RxState, r: RxRing, last: nat, budget: int, n: Steps): (k: Steps)
    requires RxWellFormed(v)
    ensures n <= k
    decreases RX_RING_LEN - n
  {
    var k := RxIx(r, Step(v.cRx[r], n));
    if n == RX_RING_LEN || Owned(v.words[k]) || v.hdrs[k].len == 0 then n
    else if RxDescAddr(RxIx(r, Step(v.cRx[r], n + 1))) == last || n + 1 >= budget then n + 1
    else RecvCount(v, r, last, budget, n + 1)
  }

  /** Frames taken from ring r: none when the cursor is at the hardware pointer on entry. */
  function Received(v: RxState, r: RxRing, last: nat, budget: int): Steps
    requires RxWellFormed(v)
  {
    if RxDescAddr(RxIx(r, v.cRx[r])) == last then 0 else RecvCount(v, r, last, budget, 0)
  }

  lemma {:induction false} RecvCountBudget(v: RxState, r: RxRing, last: nat, budget: int, n: Steps)
    requires RxWellFormed(v) && n < budget
    ensures RecvCount(v, r, last, budget, n) <= budget
    decreases RX_RING_LEN - n
  {
    var k := RxIx(r, Step(v.cRx[r], n));
    if n == RX_RING_LEN || Owned(v.words[k]) || v.hdrs[k].len == 0 {
    } else if RxDescAddr(RxIx(r, Step(v.cRx[r], n + 1))) == last || n + 1 >= budget {
    } else {
      RecvCountBudget(v, r, last, budget, n + 1);
    }
  }

  /** A positive budget is never exceeded; a budget of 0 or less still lets one frame through. */
  lemma ReceivedBudget(v: RxState, r: RxRing, last: nat, budget: int)
    requires RxWellFormed(v)
    ensures Received(v, r, last, budget) <= if budget > 0 then budget else 1
  {
    if budget > 0 {
      RecvCountBudget(v, r, last, budget, 0);
    }
  }

  /**
   * Why the walk from n stopped at k: every slot taken was CPU-owned and
   * non-empty, the cursor did not meet the pointer before the last one,
   * and the walk stopped at a full turn, a switch-owned or empty slot, or
   * (after at least one more frame) at the pointer or the budget.
   */
  lemma {:induction false} RecvCountSpec(v: RxState, r: RxRing, last: nat, budget: int, n: Steps)
    requires RxWellFormed(v)
    ensures var c := v.cRx[r]; var k := RecvCount(v, r, last, budget, n);
      (forall t :: n <= t < k ==>
        !Owned(v.words[RxIx(r, Step(c, t))]) && v.hdrs[RxIx(r, Step(c, t))].len != 0) &&
      (forall t :: n < t < k ==> RxDescAddr(RxIx(r, Step(c, t))) != last) &&
      (k == RX_RING_LEN || Owned(v.words[RxIx(r, Step(c, k))]) || v.hdrs[RxIx(r, Step(c, k))].len == 0 ||
       (k > n && (RxDescAddr(RxIx(r, Step(c, k))) == last || k >= budget)))
    decreases RX_RING_LEN - n
  {
    var k := RxIx(r, Step(v.cRx[r], n));
    if n == RX_RING_LEN || Owned(v.words[k]) || v.hdrs[k].len == 0 {
    } else if RxDescAddr(RxIx(r, Step(v.cRx[r], n + 1))) == last || n + 1 >= budget {
    } else {
      RecvCountSpec(v, r, last, budget, n + 1);
    }
  }

  /** The first n slots from the cursor of ring r are non-empty. */
  predicate Filled(v: RxState, r: RxRing, n: nat)
    requires RxWellFormed(v)
  {
    forall t :: 0 <= t < n ==> v.hdrs[RxIx(r, Step(v.cRx[r], t))].len != 0
  }

  /** The frames of the first n slots from the cursor of ring r, in ring order. */
  function Frames(v: RxState, space: seq<bv8>, r: RxRing, dsa: bool, n: nat): seq<seq<bv8>>
    requires RxReady(v, space) && Filled(v, r, n)
  {
    if n == 0 then []
    else
      var h := v.hdrs[RxIx(r, Step(v.cRx[r], n - 1))];
      Frames(v, space, r, dsa, n - 1) + [Frame(space, h, dsa)]
  }

  /** The bytes in a list of frames. */
  function TotalLen(fs: seq<seq<bv8>>): nat
  {
    if |fs| == 0 then 0 else TotalLen(fs[..|fs| - 1]) + |fs[|fs| - 1]|
  }

  lemma TotalLenSnoc(fs: seq<seq<bv8>>, f: seq<bv8>)
    ensures TotalLen(fs + [f]) == TotalLen(fs) + |f|
  {
    assert (fs + [f])[..|fs|] == fs;
  }

  /** Before a full turn, the header under the cursor is still the one the walk started with. */
  lemma CursorHdr(v: RxState, r: RxRing, n: Steps)
    requires RxWellFormed(v) && n < RX_RING_LEN
    ensures var k := RxIx(r, Step(v.cRx[r], n));
      RearmAfter(v, r, n).hdrs[k] == v.hdrs[k]
  {
    StepUnvisited(v.cRx[r], n);
    RearmHdrs(v, r, n, r, Step(v.cRx[r], n));
  }

  /** Re-arming a slot keeps every header as the switch expects it. */
  lemma RearmKeepsReady(v: RxState, space: seq<bv8>, r: RxRing)
    requires RxReady(v, space)
    ensures RxReady(RearmStep(v, r), space)
  {
    BufOffsetsInside(r, v.cRx[r]);
  }

  /**
   * One pass of the do-while of rtl83xx_hw_receive on the ring set, as a
   * relation between the state before (v) and after (v'): a switch-owned
   * or empty cursor slot ends the walk and changes nothing; otherwise its
   * frame is delivered and the slot is re-armed exactly as the overflow
   * re-arm does it.
   */
  ghost predicate RecvPass(v: RxState, space: seq<bv8>, v': RxState, r: RxRing, dsa: bool, got: bool, frame: seq<bv8>)
    requires RxReady(v, space)
  {
    var k := RxIx(r, v.cRx[r]);
    if Owned(v.words[k]) || v.hdrs[k].len == 0 then !got && v' == v
    else got && v' == RearmStep(v, r) && frame == Frame(space, v.hdrs[k], dsa)
  }

  /**
   * v is the state n frames into rtl83xx_hw_receive on ring r from v0, and
   * the count agrees: once `done`, n is the full count; before, the count
   * from n on is the full count.
   */
  ghost predicate RecvWalked(v0: RxState, space: seq<bv8>, r: RxRing, last: nat, budget: int, n: Steps, done: bool, v: RxState)
  {
    RxReady(v0, space) && v == RearmAfter(v0, r, n) && Filled(v0, r, n) &&
    (if done then n else RecvCount(v0, r, last, budget, n)) == RecvCount(v0, r, last, budget, 0)
  }

  /** The walk meets a switch-owned or empty cursor slot only when the count says it stops there. */
  lemma RecvWalkStop(v0: RxState, space: seq<bv8>, r: RxRing, last: nat, budget: int, n: Steps, v: RxState)
    requires RecvWalked(v0, space, r, last, budget, n, false, v)
    requires Owned(v.words[RxIx(r, v.cRx[r])]) || v.hdrs[RxIx(r, v.cRx[r])].len == 0
    ensures RecvWalked(v0, space, r, last, budget, n, true, v)
  {
    assert v.cRx[r] == Step(v0.cRx[r], n);
    CursorSlot(v0, r, n);
    if n < RX_RING_LEN {
      CursorHdr(v0, r, n);
    }
  }

  /**
   * At a CPU-owned, non-empty cursor slot the walk has not finished a
   * turn, taking the frame is step n + 1, the frame is the next of Frames,
   * and the count goes on exactly as the loop does.
   */
  lemma RecvWalkTake(v0: RxState, space: seq<bv8>, r: RxRing, last: nat, budget: int, dsa: bool, n: Steps, v: RxState)
    requires RecvWalked(v0, space, r, last, budget, n, false, v) && RxReady(v, space)
    requires !Owned(v.words[RxIx(r, v.cRx[r])]) && v.hdrs[RxIx(r, v.cRx[r])].len != 0
    ensures n < RX_RING_LEN && RxWellFormed(v)
    ensures var done := RxDescAddr(RxIx(r, RearmStep(v, r).cRx[r])) == last || n + 1 >= budget;
      RecvWalked(v0, space, r, last, budget, n + 1, done, RearmStep(v, r))
    ensures Frames(v0, space, r, dsa, n + 1) ==
      Frames(v0, space, r, dsa, n) + [Frame(space, v.hdrs[RxIx(r, v.cRx[r])], dsa)]
  {
    assert v.cRx[r] == Step(v0.cRx[r], n);
    CursorSlot(v0, r, n);
    CursorHdr(v0, r, n);
    assert RearmStep(v, r) == RearmAfter(v0, r, n + 1);
  }

  /**
   * One pass of the do-while keeps RecvWalked: a delivered frame is step
   * n + 1 and the next of Frames, and the walk is done at the pointer or
   * the budget; no frame ends the walk at n.
   */
  lemma RecvWalkPass(v0: RxState, space: seq<bv8>, r: RxRing, last: nat, budget: int, dsa: bool, n: Steps,
                     v: RxState, v': RxState, got: bool, frame: seq<bv8>, work: int, done: bool)
    requires RecvWalked(v0, space, r, last, budget, n, false, v) && RxReady(v, space)
    requires RecvPass(v, space, v', r, dsa, got, frame)
    requires work == if got then n + 1 else n
    requires done == if got then RxDescAddr(RxIx(r, v'.cRx[r])) == last || n + 1 >= budget else true
    ensures 0 <= work <= RX_RING_LEN && RecvWalked(v0, space, r, last, budget, work, done, v')
    ensures got ==> Frames(v0, space, r, dsa, n + 1) == Frames(v0, space, r, dsa, n) + [frame]
  {
    if got {
      RecvWalkTake(v0, space, r, last, budget, dsa, n, v);
    } else {
      RecvWalkStop(v0, space, r, last, budget, n, v);
    }
  }

  /**
   * The body of rtl83xx_hw_receive's do-while on the ring set: a
   * switch-owned or empty cursor slot gives nothing; otherwise the frame is
   * copied out (CRC dropped, DSA trailer rebuilt), the header gets a fresh
   * buffer, size and length 0, the slot goes back to the switch and the
   * cursor advances.
   */
  method ReceiveSlot(rs: RingSet, r: RxRing, dsa: bool) returns (got: bool, frame: seq<bv8>)
    requires rs.RxShape() && rs.Valid() && RxReady(rs.View(), rs.rxSpace[..])
    modifies rs, rs.rxR, rs.rxHdr
    ensures rs.Valid() && RxReady(rs.View(), rs.rxSpace[..])
    ensures RecvPass(old(rs.View()), rs.rxSpace[..], rs.View(), r, dsa, got, frame)
  {
    var k := RxIx(r, rs.cRx[r]);
    if Owned(rs.rxR[k]) {
      return false, [];
    }
    var h := rs.rxHdr[k];
    if h.len == 0 {
      return false, [];
    }
    var len := h.len - 4;   // strip the CRC
    if dsa {
      len := len + 4;       // room for the trailer
    }
    frame := rs.rxSpace[h.buf .. h.buf + len];
    if dsa {
      frame := frame[..len - 4] + RxTrailer(h.cpuTag[0]);
    }
    ghost var v := rs.View();
    RearmKeepsReady(v, rs.rxSpace[..], r);
    rs.RearmSlot(r);
    got := true;
  }

  /** The receive path's register writes may not touch the counters they read. */
  predicate CounterRegsApart(L: Layout)
  {
    L.rxRingSize[0] != L.rxRingCntr[0] && L.rxRingSize[0] != L.rxRingCntr[1]
  }

  /** The writes made for each frame: ring 0's size to all ones, then each ring's counter with its own value. */
  function CounterWrites(m: map<int, bv32>, L: Layout): seq<Write>
  {
    [W(L.rxRingSize[0], 0xffff_ffff), W(L.rxRingCntr[0], Get(m, L.rxRingCntr[0])),
     W(L.rxRingCntr[1], Get(m, L.rxRingCntr[1]))]
  }

  /** The registers after those writes. */
  function CounterRegs(m: map<int, bv32>, L: Layout): map<int, bv32>
  {
    m[L.rxRingSize[0] := 0xffff_ffff][L.rxRingCntr[0] := Get(m, L.rxRingCntr[0])]
     [L.rxRingCntr[1] := Get(m, L.rxRingCntr[1])]
  }

  /** The registers after n frames: the writes are the same every time. */
  function RegsAfter(m: map<int, bv32>, L: Layout, n: nat): map<int, bv32>
  {
    if n == 0 then m else CounterRegs(m, L)
  }

  /** n copies of ws. */
  function Repeat(ws: seq<Write>, n: nat): seq<Write>
  {
    if n == 0 then [] else Repeat(ws, n - 1) + ws
  }

  lemma {:induction false} RepeatAdd(ws: seq<Write>, a: nat, b: nat)
    ensures Repeat(ws, a) + Repeat(ws, b) == Repeat(ws, a + b)
  {
    if b > 0 {
      RepeatAdd(ws, a, b - 1);
    }
  }

  /**
   * Each counter is written back with the value it holds, so the writes
   * are idempotent: once made, making them again changes no register and
   * writes the same values.
   */
  lemma CounterRegsStable(m: map<int, bv32>, L: Layout)
    requires CounterRegsApart(L)
    ensures CounterRegs(CounterRegs(m, L), L) == CounterRegs(m, L)
    ensures CounterWrites(CounterRegs(m, L), L) == CounterWrites(m, L)
  {
    var s, c0, c1 := L.rxRingSize[0], L.rxRingCntr[0], L.rxRingCntr[1];
    var m' := CounterRegs(m, L);
    assert Get(m', c0) == Get(m, c0) && Get(m', c1) == Get(m, c1);
    UpdateUnchanged(m', s);
    UpdateUnchanged(m', c0);
    UpdateUnchanged(m', c1);
  }

  /** One more pass's writes (none when no frame was taken) extend the register state and the trace as RegsAfter and Repeat say. */
  lemma CountersStep(m: map<int, bv32>, L: Layout, n: nat, t: seq<Write>, got: bool, work: nat)
    requires CounterRegsApart(L) && work == if got then n + 1 else n
    ensures (if got then CounterRegs(RegsAfter(m, L, n), L) else RegsAfter(m, L, n)) == RegsAfter(m, L, work)
    ensures t + Repeat(CounterWrites(m, L), n) + (if got then CounterWrites(RegsAfter(m, L, n), L) else []) ==
      t + Repeat(CounterWrites(m, L), work)
  {
    CounterRegsStable(m, L);
    if got {
      AppendTwo(t, Repeat(CounterWrites(m, L), n), CounterWrites(m, L));
    } else {
      assert t + Repeat(CounterWrites(m, L), n) + [] == t + Repeat(CounterWrites(m, L), n);
    }
  }

  /** The registers once the size is written and the counters of rings below i are written back. */
  ghost function Copied(m: map<int, bv32>, L: Layout, i: nat): map<int, bv32>
    requires i <= RX_NUM_RINGS
  {
    if i == 0 then m[L.rxRingSize[0] := 0xffff_ffff]
    else Copied(m, L, i - 1)[L.rxRingCntr[i - 1] := Get(m, L.rxRingCntr[i - 1])]
  }

  /** The writes made up to that point. */
  ghost function CopyTrace(m: map<int, bv32>, L: Layout, i: nat): seq<Write>
    requires i <= RX_NUM_RINGS
  {
    if i == 0 then [W(L.rxRingSize[0], 0xffff_ffff)]
    else CopyTrace(m, L, i - 1) + [W(L.rxRingCntr[i - 1], Get(m, L.rxRingCntr[i - 1]))]
  }

  /** A counter not yet written back still reads as it did before the size write. */
  lemma CopiedGet(m: map<int, bv32>, L: Layout, i: nat)
    requires CounterRegsApart(L) && i < RX_NUM_RINGS
    ensures Get(Copied(m, L, i), L.rxRingCntr[i]) == Get(m, L.rxRingCntr[i])
  {
  }

  /** dma_rx_ring_size(0, ~0) and the counter refresh loop. */
  method RefreshCounters(rf: RegFile, L: Layout)
    requires CounterRegsApart(L)
    modifies rf
    ensures rf.regs == CounterRegs(old(rf.regs), L)
    ensures rf.trace == old(rf.trace) + CounterWrites(old(rf.regs), L)
  {
    ghost var m, t := rf.regs, rf.trace;
    rf.Write(L.rxRingSize[0], 0xffff_ffff);
    var i := 0;
    while i < RX_NUM_RINGS
      invariant 0 <= i <= RX_NUM_RINGS
      invariant rf.regs == Copied(m, L, i) && rf.trace == t + CopyTrace(m, L, i)
    {
      CopiedGet(m, L, i);
      var val := rf.Read(L.rxRingCntr[i]);
      rf.Write(L.rxRingCntr[i], val);
      i := i + 1;
    }
    assert CopyTrace(m, L, 2) == CounterWrites(m, L);
  }

  /**
   * One pass of rtl83xx_hw_receive's do-while: the slot (ReceiveSlot), and
   * for a delivered frame the counter refresh and the RX counters.
   */
  method ReceiveOne(rf: RegFile, L: Layout, rs: RingSet, st: NetStats, r: RxRing, dsa: bool)
    returns (got: bool, frame: seq<bv8>)
    requires CounterRegsApart(L)
    requires rs.RxShape() && rs.Valid() && RxReady(rs.View(), rs.rxSpace[..])
    modifies rf, rs, rs.rxR, rs.rxHdr, st
    ensures rs.Valid() && RxReady(rs.View(), rs.rxSpace[..])
    ensures RecvPass(old(rs.View()), rs.rxSpace[..], rs.View(), r, dsa, got, frame)
    ensures got ==> st.rxPackets == old(st.rxPackets) + 1 && st.rxBytes == old(st.rxBytes) + |frame|
    ensures !got ==> st.rxPackets == old(st.rxPackets) && st.rxBytes == old(st.rxBytes)
    ensures st.txPackets == old(st.txPackets) && st.txBytes == old(st.txBytes)
    ensures rf.regs == (if got then CounterRegs(old(rf.regs), L) else old(rf.regs))
    ensures rf.trace == old(rf.trace) + (if got then CounterWrites(old(rf.regs), L) else [])
  {
    got, frame := ReceiveSlot(rs, r, dsa);
    if got {
      RefreshCounters(rf, L);
      st.rxPackets := st.rxPackets + 1;
      st.rxBytes := st.rxBytes + |frame|;
    }
  }

  /**
   * ReceiveOne inside the walk of HwReceive, n frames in: the walk, the
   * register state and the trace advance by one frame (work = n + 1), or
   * the walk ends with nothing changed (work = n).
   */
  method WalkOne(rf: RegFile, L: Layout, rs: RingSet, st: NetStats, r: RxRing, dsa: bool,
                 ghost v0: RxState, ghost space: seq<bv8>, ghost regs0: map<int, bv32>, ghost t0: seq<Write>,
                 last: nat, budget: int, n: Steps)
    returns (got: bool, frame: seq<bv8>, work: Steps, done: bool)
    requires CounterRegsApart(L)
    requires rs.RxShape() && rs.Valid() && RxReady(rs.View(), space) && rs.rxSpace[..] == space
    requires RecvWalked(v0, space, r, last, budget, n, false, rs.View())
    requires rf.regs == RegsAfter(regs0, L, n) && rf.trace == t0 + Repeat(CounterWrites(regs0, L), n)
    modifies rf, rs, rs.rxR, rs.rxHdr, st
    ensures rs.Valid() && RxReady(rs.View(), space)
    ensures RecvWalked(v0, space, r, last, budget, work, done, rs.View())
    ensures rf.regs == RegsAfter(regs0, L, work) && rf.trace == t0 + Repeat(CounterWrites(regs0, L), work)
    ensures got ==> (work == n + 1 && Frames(v0, space, r, dsa, n + 1) == Frames(v0, space, r, dsa, n) + [frame] &&
      st.rxPackets == old(st.rxPackets) + 1 && st.rxBytes == old(st.rxBytes) + |frame|)
    ensures !got ==> (work == n && done && st.rxPackets == old(st.rxPackets) && st.rxBytes == old(st.rxBytes))
    ensures st.txPackets == old(st.txPackets) && st.txBytes == old(st.txBytes)
  {
    ghost var v := rs.View();
    got, frame := ReceiveOne(rf, L, rs, st, r, dsa);
    var w: int := if got then n + 1 else n;
    done := !got || RxDescAddr(RxIx(r, rs.cRx[r])) == last || w >= budget;
    RecvWalkPass(v0, space, r, last, budget, dsa, n, v, rs.View(), got, frame, w, done);
    work := w;
    CountersStep(regs0, L, n, t0, got, work);
  }

  /** WalkOne with the list of frames delivered so far. */
  method ReceiveStep(rf: RegFile, L: Layout, rs: RingSet, st: NetStats, r: RxRing, dsa: bool,
                     ghost v0: RxState, ghost space: seq<bv8>, ghost regs0: map<int, bv32>, ghost t0: seq<Write>,
                     ghost p0: nat, ghost b0: nat, last: nat, budget: int, n: Steps, frames: seq<seq<bv8>>)
    returns (work: Steps, done: bool, frames': seq<seq<bv8>>)
    requires CounterRegsApart(L)
    requires rs.RxShape() && rs.Valid() && RxReady(rs.View(), space) && rs.rxSpace[..] == space
    requires RecvWalked(v0, space, r, last, budget, n, false, rs.View())
    requires frames == Frames(v0, space, r, dsa, n)
    requires st.rxPackets == p0 + n && st.rxBytes == b0 + TotalLen(frames)
    requires rf.regs == RegsAfter(regs0, L, n) && rf.trace == t0 + Repeat(CounterWrites(regs0, L), n)
    modifies rf, rs, rs.rxR, rs.rxHdr, st
    ensures rs.Valid() && RxReady(rs.View(), space)
    ensures RecvWalked(v0, space, r, last, budget, work, done, rs.View())
    ensures frames' == Frames(v0, space, r, dsa, work)
    ensures st.rxPackets == p0 + work && st.rxBytes == b0 + TotalLen(frames')
    ensures st.txPackets == old(st.txPackets) && st.txBytes == old(st.txBytes)
    ensures rf.regs == RegsAfter(regs0, L, work) && rf.trace == t0 + Repeat(CounterWrites(regs0, L), work)
    ensures work == n + 1 || (work == n && done)
  {
    var got, frame;
    got, frame, work, done := WalkOne(rf, L, rs, st, r, dsa, v0, space, regs0, t0, last, budget, n);
    if got {
      TotalLenSnoc(frames, frame);
      frames' := frames + [frame];
    } else {
      frames' := frames;
    }
  }

  /**
   * rtl83xx_hw_receive on ring r: the frames from the cursor up to the
   * first switch-owned or empty slot, the hardware pointer or the budget,
   * each delivered in ring order and its slot handed back; the counter
   * registers are refreshed and the RX counters grow for every frame.
   */
  method HwReceive(rf: RegFile, L: Layout, rs: RingSet, st: NetStats, r: RxRing, budget: int, dsa: bool)
    returns (work: nat, frames: seq<seq<bv8>>)
    requires CounterRegsApart(L)
    requires rs.RxShape() && rs.Valid() && RxReady(rs.View(), rs.rxSpace[..])
    modifies rf, rs, rs.rxR, rs.rxHdr, st
    ensures rs.Valid() && RxReady(rs.View(), rs.rxSpace[..])
    ensures var v := old(rs.View());
      var k := Received(v, r, RxCur(old(rf.regs), L, r), budget);
      work == k && rs.View() == RearmAfter(v, r, k) && Filled(v, r, k) &&
      frames == Frames(v, rs.rxSpace[..], r, dsa, k)
    ensures st.rxPackets == old(st.rxPackets) + work && st.rxBytes == old(st.rxBytes) + TotalLen(frames)
    ensures st.txPackets == old(st.txPackets) && st.txBytes == old(st.txBytes)
    ensures rf.regs == RegsAfter(old(rf.regs), L, work)
    ensures rf.trace == old(rf.trace) + Repeat(CounterWrites(old(rf.regs), L), work)
  {
    ghost var v0, space, regs0 := rs.View(), rs.rxSpace[..], rf.regs;
    var val := rf.Read(L.rxCur[r]);
    var last := val as nat;
    if RxDescAddr(RxIx(r, rs.cRx[r])) == last {
      return 0, [];
    }
    work := 0;
    frames := [];
    var done := false;
    while !done
      invariant rs.Valid() && RxReady(rs.View(), space) && rs.rxSpace[..] == space && work <= RX_RING_LEN
      invariant RecvWalked(v0, space, r, last, budget, work, done, rs.View())
      invariant frames == Frames(v0, space, r, dsa, work)
      invariant st.rxPackets == old(st.rxPackets) + work && st.rxBytes == old(st.rxBytes) + TotalLen(frames)
      invariant st.txPackets == old(st.txPackets) && st.txBytes == old(st.txBytes)
      invariant rf.regs == RegsAfter(regs0, L, work)
      invariant rf.trace == old(rf.trace) + Repeat(CounterWrites(regs0, L), work)
      decreases RX_RING_LEN - work, if done then 0 else 1
    {
      work, done, frames := ReceiveStep(rf, L, rs, st, r, dsa, v0, space, regs0, old(rf.trace),
                                        old(st.rxPackets), old(st.rxBytes), last, budget, work, frames);
    }
  }
}
