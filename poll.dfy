/*
 * rtl83xx_poll_rx: the NAPI poll shares its budget between the RX rings,
 * ring 0 first, each walked by rtl83xx_hw_receive with what is left of the
 * budget, and turns the RX interrupts back on when the budget was not used
 * up.
 */
module Poll {
  import opened Mmio
  import opened EthDefs
  import opened Ring
  import opened Soc
  import opened Tables
  import opened Netdev
  import opened Rx

  /** What the poll has done after some rings: frames counted, ring state, registers, writes and frames delivered. */
  datatype PollState = PollState(work: nat, v: RxState, regs: map<int, bv32>, writes: seq<Write>, frames: seq<seq<bv8>>)

  /** The poll's progress p is the state of the ring set, the registers and the frames delivered. */
  ghost predicate Matches(p: PollState, work: nat, frames: seq<seq<bv8>>, v: RxState, regs: map<int, bv32>,
                          trace: seq<Write>, t0: seq<Write>)
  {
    work == p.work && frames == p.frames && v == p.v && regs == p.regs && trace == t0 + p.writes
  }

  /** The first k slots from the cursor that a walk takes are all non-empty. */
  lemma ReceivedFilled(v: RxState, r: RxRing, last: nat, budget: int)
    requires RxWellFormed(v)
    ensures Filled(v, r, Received(v, r, last, budget))
  {
    if RxDescAddr(RxIx(r, v.cRx[r])) != last {
      RecvCountSpec(v, r, last, budget, 0);
    }
  }

  /** Re-arming keeps every header as the switch expects it, however many slots are re-armed. */
  lemma {:induction false} RearmAfterReady(v: RxState, space: seq<bv8>, r: RxRing, n: nat)
    requires RxReady(v, space)
    ensures RxReady(RearmAfter(v, r, n), space)
  {
    if n > 0 {
      RearmAfterReady(v, space, r, n - 1);
      RearmKeepsReady(RearmAfter(v, r, n - 1), space, r);
    }
  }

  /**
   * One pass of the poll loop on ring r: while frames counted are below
   * the budget, ring r is walked with the budget that is left.
   */
  ghost function PollRing(p: PollState, space: seq<bv8>, L: Layout, budget: int, dsa: bool, r: RxRing): (q: PollState)
    requires RxReady(p.v, space)
    ensures RxReady(q.v, space)
  {
    if p.work < budget then
      var k := Received(p.v, r, RxCur(p.regs, L, r), budget - p.work);
      ReceivedFilled(p.v, r, RxCur(p.regs, L, r), budget - p.work);
      RearmAfterReady(p.v, space, r, k);
      PollState(p.work + k, RearmAfter(p.v, r, k), RegsAfter(p.regs, L, k),
                p.writes + Repeat(CounterWrites(p.regs, L), k), p.frames + Frames(p.v, space, r, dsa, k))
    else p
  }

  /** The poll after its first n rings, from ring state v and registers regs. */
  ghost function PollAfter(v: RxState, space: seq<bv8>, regs: map<int, bv32>, L: Layout, budget: int, dsa: bool, n: nat): (q: PollState)
    requires RxReady(v, space) && n <= RX_NUM_RINGS
    ensures RxReady(q.v, space)
  {
    if n == 0 then PollState(0, v, regs, [], [])
    else PollRing(PollAfter(v, space, regs, L, budget, dsa, n - 1), space, L, budget, dsa, n - 1)
  }

  /** The bytes of two lists of frames. */
  lemma {:induction false} TotalLenAppend(a: seq<seq<bv8>>, b: seq<seq<bv8>>)
    ensures TotalLen(a + b) == TotalLen(a) + TotalLen(b)
    decreases |b|
  {
    if |b| > 0 {
      var b' := b[..|b| - 1];
      assert a + b == (a + b') + [b[|b| - 1]];
      assert b == b' + [b[|b| - 1]];
      TotalLenAppend(a, b');
      TotalLenSnoc(a + b', b[|b| - 1]);
      TotalLenSnoc(b', b[|b| - 1]);
    } else {
      assert a + b == a;
    }
  }

  /** One ring walked with the budget left keeps the count within a positive budget. */
  lemma PollRingBudget(p: PollState, space: seq<bv8>, L: Layout, budget: int, dsa: bool, r: RxRing)
    requires RxReady(p.v, space) && budget > 0 && p.work <= budget
    ensures PollRing(p, space, L, budget, dsa, r).work <= budget
  {
    if p.work < budget {
      ReceivedBudget(p.v, r, RxCur(p.regs, L, r), budget - p.work);
    }
  }

  /**
   * With a positive budget the poll never reports more frames than the
   * budget: each ring is walked with what is left, and a walk stays within
   * a positive budget.
   */
  lemma {:induction false} PollBudget(v: RxState, space: seq<bv8>, regs: map<int, bv32>, L: Layout, budget: int, dsa: bool, n: nat)
    requires RxReady(v, space) && n <= RX_NUM_RINGS && budget > 0
    ensures PollAfter(v, space, regs, L, budget, dsa, n).work <= budget
  {
    if n > 0 {
      PollBudget(v, space, regs, L, budget, dsa, n - 1);
      PollRingBudget(PollAfter(v, space, regs, L, budget, dsa, n - 1), space, L, budget, dsa, n - 1);
    }
  }

  /** Once the budget is used up the remaining rings change nothing. */
  lemma {:induction false} PollStops(v: RxState, space: seq<bv8>, regs: map<int, bv32>, L: Layout, budget: int, dsa: bool, n: nat)
    requires RxReady(v, space) && n <= RX_NUM_RINGS
    requires PollAfter(v, space, regs, L, budget, dsa, n).work >= budget
    ensures PollAfter(v, space, regs, L, budget, dsa, RX_NUM_RINGS) == PollAfter(v, space, regs, L, budget, dsa, n)
    decreases RX_NUM_RINGS - n
  {
    if n < RX_NUM_RINGS {
      assert PollAfter(v, space, regs, L, budget, dsa, n + 1) == PollAfter(v, space, regs, L, budget, dsa, n);
      PollStops(v, space, regs, L, budget, dsa, n + 1);
    }
  }

  /** A budget of zero or less walks no ring: nothing is counted, changed or written. */
  lemma PollNoBudget(v: RxState, space: seq<bv8>, regs: map<int, bv32>, L: Layout, budget: int, dsa: bool, n: nat)
    requires RxReady(v, space) && n <= RX_NUM_RINGS && budget <= 0
    ensures PollAfter(v, space, regs, L, budget, dsa, n) == PollState(0, v, regs, [], [])
  {
    if n > 0 {
      PollNoBudget(v, space, regs, L, budget, dsa, n - 1);
    }
  }

  /** One ring of the poll loop: rtl83xx_hw_receive on ring r with the budget left, its count added. */
  method PollOne(rf: RegFile, L: Layout, rs: RingSet, st: NetStats, dsa: bool, budget: int, r: RxRing,
                 ghost v0: RxState, ghost space: seq<bv8>, ghost regs0: map<int, bv32>, ghost t0: seq<Write>,
                 ghost p0: nat, ghost b0: nat, work: nat, frames: seq<seq<bv8>>)
    returns (work': nat, frames': seq<seq<bv8>>)
    requires CounterRegsApart(L) && RxReady(v0, space) && work < budget
    requires rs.RxShape() && rs.Valid() && rs.rxSpace[..] == space
    requires Matches(PollAfter(v0, space, regs0, L, budget, dsa, r), work, frames, rs.View(), rf.regs, rf.trace, t0)
    requires st.rxPackets == p0 + work && st.rxBytes == b0 + TotalLen(frames)
    modifies rf, rs, rs.rxR, rs.rxHdr, st
    ensures rs.Valid()
    ensures Matches(PollAfter(v0, space, regs0, L, budget, dsa, r + 1), work', frames', rs.View(), rf.regs, rf.trace, t0)
    ensures st.rxPackets == p0 + work' && st.rxBytes == b0 + TotalLen(frames')
    ensures st.txPackets == old(st.txPackets) && st.txBytes == old(st.txBytes)
  {
    ghost var p := PollAfter(v0, space, regs0, L, budget, dsa, r);
    assert PollAfter(v0, space, regs0, L, budget, dsa, r + 1) == PollRing(p, space, L, budget, dsa, r);
    var k, fs := HwReceive(rf, L, rs, st, r, budget - work, dsa);
    AppendTwo(t0, p.writes, Repeat(CounterWrites(p.regs, L), k));
    TotalLenAppend(frames, fs);
    work' := work + k;
    frames' := frames + fs;
  }

  /** The while loop of rtl83xx_poll_rx: ring 0, then ring 1 while the frames counted stay below the budget. */
  method PollRings(rf: RegFile, L: Layout, rs: RingSet, st: NetStats, budget: int, dsa: bool)
    returns (work: nat, frames: seq<seq<bv8>>)
    requires CounterRegsApart(L)
    requires rs.RxShape() && rs.Valid() && RxReady(rs.View(), rs.rxSpace[..])
    modifies rf, rs, rs.rxR, rs.rxHdr, st
    ensures rs.Valid()
    ensures Matches(PollAfter(old(rs.View()), rs.rxSpace[..], old(rf.regs), L, budget, dsa, RX_NUM_RINGS),
                    work, frames, rs.View(), rf.regs, rf.trace, old(rf.trace))
    ensures st.rxPackets == old(st.rxPackets) + work && st.rxBytes == old(st.rxBytes) + TotalLen(frames)
    ensures st.txPackets == old(st.txPackets) && st.txBytes == old(st.txBytes)
  {
    ghost var v0, space, regs0 := rs.View(), rs.rxSpace[..], rf.regs;
    work := 0;
    frames := [];
    var r := 0;
    while work < budget && r < RX_NUM_RINGS
      invariant 0 <= r <= RX_NUM_RINGS && rs.Valid() && rs.rxSpace[..] == space
      invariant Matches(PollAfter(v0, space, regs0, L, budget, dsa, r), work, frames, rs.View(), rf.regs, rf.trace, old(rf.trace))
      invariant st.rxPackets == old(st.rxPackets) + work && st.rxBytes == old(st.rxBytes) + TotalLen(frames)
      invariant st.txPackets == old(st.txPackets) && st.txBytes == old(st.txBytes)
    {
      work, frames := PollOne(rf, L, rs, st, dsa, budget, r, v0, space, regs0, old(rf.trace),
                              old(st.rxPackets), old(st.rxBytes), work, frames);
      r := r + 1;
    }
    if r < RX_NUM_RINGS {
      PollStops(v0, space, regs0, L, budget, dsa, r);
    }
  }

  /** The write that ends the poll: dma_irq(1) on the interrupt mask when the budget was not used up, else none. */
  ghost function IrqReenable(p: PollState, L: Layout, budget: int): seq<Write>
  {
    if p.work < budget then [W(L.intrMsk, DmaIrqValue(Get(p.regs, L.intrMsk), L, true))] else []
  }

  /** The end of rtl83xx_poll_rx: dma_irq(1) when fewer frames than the budget came in. */
  method ReenableIfIdle(rf: RegFile, L: Layout, budget: int, work: nat, ghost p: PollState)
    requires work == p.work && rf.regs == p.regs
    modifies rf
    ensures rf.regs == Apply(p.regs, IrqReenable(p, L, budget))
    ensures rf.trace == old(rf.trace) + IrqReenable(p, L, budget)
  {
    if work < budget {
      ghost var w := W(L.intrMsk, DmaIrqValue(Get(p.regs, L.intrMsk), L, true));
      assert IrqReenable(p, L, budget) == [w];
      assert Apply(p.regs, [w]) == Apply(p.regs[L.intrMsk := w.val], []);
      DmaIrq(rf, L, true);
    } else {
      assert old(rf.trace) + [] == old(rf.trace);
    }
  }

  /**
   * rtl83xx_poll_rx: the rings as PollRings walks them; the total is
   * returned and the RX interrupts are re-enabled (dma_irq(1)) exactly
   * when it is below the budget.
   */
  method PollRx(rf: RegFile, L: Layout, rs: RingSet, st: NetStats, budget: int, dsa: bool)
    returns (work: nat, frames: seq<seq<bv8>>)
    requires CounterRegsApart(L)
    requires rs.RxShape() && rs.Valid() && RxReady(rs.View(), rs.rxSpace[..])
    modifies rf, rs, rs.rxR, rs.rxHdr, st
    ensures rs.Valid()
    ensures var p := PollAfter(old(rs.View()), rs.rxSpace[..], old(rf.regs), L, budget, dsa, RX_NUM_RINGS);
      work == p.work && frames == p.frames && rs.View() == p.v &&
      rf.regs == Apply(p.regs, IrqReenable(p, L, budget)) && rf.trace == old(rf.trace) + p.writes + IrqReenable(p, L, budget)
    ensures st.rxPackets == old(st.rxPackets) + work && st.rxBytes == old(st.rxBytes) + TotalLen(frames)
    ensures st.txPackets == old(st.txPackets) && st.txBytes == old(st.txBytes)
  {
    work, frames := PollRings(rf, L, rs, st, budget, dsa);
    ReenableIfIdle(rf, L, budget, work, PollAfter(old(rs.View()), rs.rxSpace[..], old(rf.regs), L, budget, dsa, RX_NUM_RINGS));
  }
}
