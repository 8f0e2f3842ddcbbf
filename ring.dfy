/*
 * The ring set shared between the CPU and the switch's DMA engine: the
 * RX/TX descriptor words, the packet headers they point to, the CPU's
 * ring cursors and the frame-buffer spaces.  Two-dimensional arrays are
 * stored row-major, as C lays them out (index RxIx(r, j) / TxIx(r, j)).
 */
module Ring {
  import opened EthDefs

  /** Distance from the cursor c0 forward to slot j is below n: slot j is among the first n visited. */
  predicate Visited(c0: nat, n: nat, j: nat)
  {
    (j + RX_RING_LEN - c0) % RX_RING_LEN < n
  }

  /** The descriptor word the re-arm writes: CPHYSADDR(h) | 0x1 | (last slot ? WRAP : 0x1). */
  function RearmWord(r: RxRing, j: RxSlot): Desc
  {
    var w := OrOwn(PlainWord(RxHdrAddr(RxIx(r, j))));
    if j == RX_RING_LEN - 1 then OrWrap(w) else OrOwn(w)
  }

  /** The header fields the ring set-up writes: buffer, size, offset and length; the others are kept. */
  function SetupHeader(h: Header, r: nat, j: nat): Header
  {
    h.(buf := BufOffset(r, j), reserved := 0, size := FRAMEBUF_SIZE, offset := 0, len := 0)
  }

  /** The word rtl83xx_setup_ringbuf gives RX slot j of ring r: switch-owned, WRAP on the last slot. */
  function RxSetupWord(r: RxRing, j: RxSlot): Desc
  {
    DescWord(RxHdrAddr(RxIx(r, j)), true, j == RX_RING_LEN - 1)
  }

  /** The word rtl83xx_setup_ringbuf gives TX slot j of ring r: CPU-owned, WRAP on the last slot. */
  function TxSetupWord(r: TxRing, j: TxSlot): Desc
  {
    DescWord(TxHdrAddr(TxIx(r, j)), false, j == TX_RING_LEN - 1)
  }

  /** The header fields the re-arm resets; the others are kept. */
  function RearmHeader(h: Header, r: nat, j: nat): Header
  {
    h.(buf := BufOffset(r, j), size := FRAMEBUF_SIZE, len := 0)
  }

  /**
   * The re-arm writes `| 0x1` where the set-up writes `| 0x0` for all but
   * the last slot; both set the owner bit anyway, so a re-armed descriptor
   * is exactly the one the set-up gave the slot: switch-owned, WRAP on the
   * last slot only, pointing at its own header.
   */
  lemma RearmWordIsSetupWord(r: RxRing, j: RxSlot)
    ensures RearmWord(r, j) == RxSetupWord(r, j)
    ensures Owned(RearmWord(r, j)) && (Wraps(RearmWord(r, j)) <==> j == RX_RING_LEN - 1)
    ensures RearmWord(r, j).addr == RxHdrAddr(RxIx(r, j))
  {
  }

  /** Slot index reached n steps after cursor c. */
  function Step(c: RxSlot, n: nat): RxSlot
  {
    if n == 0 then c else NextSlot(Step(c, n - 1))
  }

  /** The slot after c: (c + 1) % RX_RING_LEN for a slot of the ring. */
  function NextSlot(c: RxSlot): (t: RxSlot)
    ensures t == 0 <==> c == RX_RING_LEN - 1
  {
    if c + 1 == RX_RING_LEN then 0 else c + 1
  }

  /** n steps from the cursor is the cursor plus n, modulo the ring length. */
  lemma {:induction false} StepMod(c: RxSlot, n: nat)
    ensures Step(c, n) == (c + n) % RX_RING_LEN
  {
    if n > 0 {
      StepMod(c, n - 1);
    }
  }

  /** A full turn of the ring brings the cursor back to where it started. */
  lemma StepFullTurn(c: RxSlot)
    ensures Step(c, RX_RING_LEN) == c
  {
    StepMod(c, RX_RING_LEN);
    assert c + RX_RING_LEN == 1 * RX_RING_LEN + c;
  }

  /** A number of steps of the re-arm walk: it never goes round the ring more than once. */
  type Steps = n: nat | n <= RX_RING_LEN

  /**
   * Number of slots the overflow re-arm hands back on ring r, given the
   * ring's descriptor words s (all rings, flattened), the cursor c and the
   * masked hardware pointer `last`; n slots have been re-armed so far.
   * The loop body runs before the pointer comparison, and the slot at
   * the cursor after n = RX_RING_LEN steps is one the walk already re-armed.
   */
  function CleanupCount(s: seq<Desc>, r: RxRing, c: RxSlot, last: nat, n: Steps): (k: Steps)
    requires |s| == RX_SLOTS
    ensures n <= k
    decreases RX_RING_LEN - n
  {
    if n == RX_RING_LEN || Owned(s[RxIx(r, Step(c, n))]) then n
    else if RxDescAddr(RxIx(r, Step(c, n + 1))) == last then n + 1
    else CleanupCount(s, r, c, last, n + 1)
  }

  /** c_rx[] / c_tx[]: one cursor per ring, each a slot of its ring. */
  type RxCursors = s: seq<RxSlot> | |s| == RX_NUM_RINGS witness [0, 0]
  type TxCursors = s: seq<TxSlot> | |s| == TX_NUM_RINGS witness [0, 0]

  /** The RX side of the ring set as a value: descriptor words, headers and the cursors. */
  datatype RxState = RxState(words: seq<Desc>, hdrs: seq<Header>, cRx: RxCursors, cTx: TxCursors)

  predicate RxWellFormed(v: RxState)
  {
    |v.words| == RX_SLOTS && |v.hdrs| == RX_SLOTS
  }

  /**
   * One step of the overflow re-arm of ring r: the slot under the cursor
   * gets a fresh header and is handed to the switch, and the cursor
   * advances.
   */
  function RearmStep(v: RxState, r: RxRing): (t: RxState)
    requires RxWellFormed(v)
    ensures RxWellFormed(t)
  {
    var c := v.cRx[r];
    var k := RxIx(r, c);
    v.(words := v.words[k := RearmWord(r, c)],
       hdrs := v.hdrs[k := RearmHeader(v.hdrs[k], r, c)],
       cRx := v.cRx[r := NextSlot(c)])
  }

  /** The state after the first n steps of the overflow re-arm of ring r. */
  function RearmAfter(v: RxState, r: RxRing, n: nat): (t: RxState)
    requires RxWellFormed(v)
    ensures RxWellFormed(t)
    ensures t.cRx == v.cRx[r := Step(v.cRx[r], n)] && t.cTx == v.cTx
  {
    if n == 0 then v else RearmStep(RearmAfter(v, r, n - 1), r)
  }

  /** One more step of the walk visits exactly the slot Step(c0, n). */
  lemma VisitedStep(c0: RxSlot, n: nat, j: RxSlot)
    requires n < RX_RING_LEN
    ensures Visited(c0, n + 1, j) <==> Visited(c0, n, j) || j == Step(c0, n)
  {
    StepMod(c0, n);
    if c0 + n < RX_RING_LEN {
      assert Step(c0, n) == c0 + n;
    } else {
      assert Step(c0, n) == c0 + n - RX_RING_LEN;
    }
    if j >= c0 {
      assert (j + RX_RING_LEN - c0) % RX_RING_LEN == j - c0;
    } else {
      assert (j + RX_RING_LEN - c0) % RX_RING_LEN == j + RX_RING_LEN - c0;
    }
  }

  /** The cursor is the one slot visited first. */
  lemma VisitedStart(c0: RxSlot, n: nat)
    ensures Visited(c0, n, c0) <==> n > 0
  {
    assert (c0 + RX_RING_LEN - c0) % RX_RING_LEN == 0;
  }

  /** Within one turn, the slot n steps past the cursor has not been visited by the first n steps. */
  lemma StepUnvisited(c: RxSlot, n: nat)
    requires n < RX_RING_LEN
    ensures !Visited(c, n, Step(c, n))
  {
    StepMod(c, n);
    if c + n < RX_RING_LEN {
      assert Step(c, n) == c + n;
      assert (c + n + RX_RING_LEN - c) % RX_RING_LEN == n;
    } else {
      assert Step(c, n) == c + n - RX_RING_LEN;
      assert (c + n - RX_RING_LEN + RX_RING_LEN - c) % RX_RING_LEN == n;
    }
  }

  /**
   * Step n + 1 of the re-arm of ring r, at slot Step(c, n), hits slot j of
   * ring r' exactly when j becomes visited by it, and then j was not
   * visited before: within one turn each slot is visited at most once.
   */
  lemma RearmVisit(c: RxSlot, n: nat, r: RxRing, r': RxRing, j: RxSlot)
    requires n < RX_RING_LEN
    ensures var now := RxIx(r, Step(c, n)) == RxIx(r', j);
      (r' == r && Visited(c, n + 1, j) <==> (r' == r && Visited(c, n, j)) || now) &&
      (now ==> r' == r && j == Step(c, n) && !Visited(c, n, j))
  {
    VisitedStep(c, n, j);
    RxIxInjective(r, Step(c, n), r', j);
    StepUnvisited(c, n);
  }

  /**
   * The first n <= RX_RING_LEN steps of the re-arm write exactly the
   * descriptor words of ring r within n steps of the cursor, each once,
   * with the re-armed word; every other word of every ring is unchanged.
   */
  lemma {:induction false} RearmWords(v: RxState, r: RxRing, n: Steps, r': RxRing, j: RxSlot)
    requires RxWellFormed(v)
    ensures var k := RxIx(r', j);
      RearmAfter(v, r, n).words[k] ==
        if r' == r && Visited(v.cRx[r], n, j) then RearmWord(r, j) else v.words[k]
  {
    var c := v.cRx[r];
    if n == 0 {
      assert !Visited(c, 0, j);
    } else {
      assert RearmAfter(v, r, n - 1).cRx[r] == Step(c, n - 1);
      RearmWords(v, r, n - 1, r', j);
      RearmVisit(c, n - 1, r, r', j);
    }
  }

  /**
   * The same slots get a re-armed header (buffer offset, size and length
   * reset, the other fields kept); every other header is unchanged.
   */
  lemma {:induction false} RearmHdrs(v: RxState, r: RxRing, n: Steps, r': RxRing, j: RxSlot)
    requires RxWellFormed(v)
    ensures var k := RxIx(r', j);
      RearmAfter(v, r, n).hdrs[k] ==
        if r' == r && Visited(v.cRx[r], n, j) then RearmHeader(v.hdrs[k], r, j) else v.hdrs[k]
  {
    var c := v.cRx[r];
    if n == 0 {
      assert !Visited(c, 0, j);
    } else {
      assert RearmAfter(v, r, n - 1).cRx[r] == Step(c, n - 1);
      RearmHdrs(v, r, n - 1, r', j);
      RearmVisit(c, n - 1, r, r', j);
    }
  }

  /** The count stops at a switch-owned slot, and after a full turn. */
  lemma CleanupCountStop(s: seq<Desc>, r: RxRing, c: RxSlot, last: nat, n: Steps)
    requires |s| == RX_SLOTS
    requires n == RX_RING_LEN || Owned(s[RxIx(r, Step(c, n))])
    ensures CleanupCount(s, r, c, last, n) == n
  {
  }

  /** One unfolding of the count at a CPU-owned slot. */
  lemma CleanupCountNext(s: seq<Desc>, r: RxRing, c: RxSlot, last: nat, n: Steps)
    requires |s| == RX_SLOTS && n < RX_RING_LEN
    requires !Owned(s[RxIx(r, Step(c, n))])
    ensures CleanupCount(s, r, c, last, n) ==
      if RxDescAddr(RxIx(r, Step(c, n + 1))) == last then n + 1 else CleanupCount(s, r, c, last, n + 1)
  {
  }

  /**
   * The slot under the cursor after n steps: after a full turn it is the
   * first slot, already re-armed and so switch-owned; before that it has
   * not been touched.
   */
  lemma CursorSlot(v: RxState, r: RxRing, n: Steps)
    requires RxWellFormed(v)
    ensures var k := RxIx(r, Step(v.cRx[r], n));
      (n == RX_RING_LEN ==> Owned(RearmAfter(v, r, n).words[k])) &&
      (n < RX_RING_LEN ==> RearmAfter(v, r, n).words[k] == v.words[k])
  {
    var c := v.cRx[r];
    var j := Step(c, n);
    if n == RX_RING_LEN {
      StepFullTurn(c);
      VisitedStart(c, n);
    } else {
      StepUnvisited(c, n);
    }
    RearmWords(v, r, n, r, j);
  }

  /**
   * The overflow re-arm stops for one of its three reasons: the whole
   * ring was walked, the next slot is switch-owned, or the walk reached the
   * hardware pointer after re-arming at least one slot.  Every re-armed slot
   * was CPU-owned, and the walk never moves past the pointer.
   */
  lemma {:induction false} CleanupCountSpec(s: seq<Desc>, r: RxRing, c: RxSlot, last: nat, n: Steps)
    requires |s| == RX_SLOTS
    requires forall t :: 0 <= t < n ==> !Owned(s[RxIx(r, Step(c, t))])
    requires forall t :: 0 < t <= n ==> RxDescAddr(RxIx(r, Step(c, t))) != last
    ensures var k := CleanupCount(s, r, c, last, n);
      (forall t :: 0 <= t < k ==> !Owned(s[RxIx(r, Step(c, t))])) &&
      (forall t :: 0 < t < k ==> RxDescAddr(RxIx(r, Step(c, t))) != last) &&
      (k == RX_RING_LEN || Owned(s[RxIx(r, Step(c, k))]) ||
       (k > 0 && RxDescAddr(RxIx(r, Step(c, k))) == last))
    decreases RX_RING_LEN - n
  {
    if n == RX_RING_LEN || Owned(s[RxIx(r, Step(c, n))]) {
    } else if RxDescAddr(RxIx(r, Step(c, n + 1))) == last {
    } else {
      CleanupCountSpec(s, r, c, last, n + 1);
    }
  }

  /**
   * Because the loop body runs before the comparison, a CPU-owned cursor
   * slot is re-armed even when the hardware pointer already points at it.
   */
  lemma CleanupRearmsCursorSlot(s: seq<Desc>, r: RxRing, c: RxSlot, last: nat)
    requires |s| == RX_SLOTS
    requires !Owned(s[RxIx(r, c)]) && RxDescAddr(RxIx(r, c)) == last
    ensures CleanupCount(s, r, c, last, 0) >= 1
  {
    assert Step(c, 0) == c;
  }

  /**
   * v is the state n steps into the overflow re-arm of ring r from v0,
   * and the walk's count is consistent with that: once `done`, n is the
   * full count; before, the count from n on is the full count.
   */
  ghost predicate Walked(v0: RxState, r: RxRing, last: nat, n: Steps, done: bool, v: RxState)
  {
    RxWellFormed(v0) && v == RearmAfter(v0, r, n) &&
    (if done then n else CleanupCount(v0.words, r, v0.cRx[r], last, n)) ==
      CleanupCount(v0.words, r, v0.cRx[r], last, 0)
  }

  /**
   * One pass of the do-while of rtl83xx_rb_cleanup as a relation between
   * the state before (v) and after (v'): a switch-owned cursor slot ends
   * the walk and changes nothing; otherwise the slot is re-armed, and the
   * walk ends when the advanced cursor has reached the pointer `last`.
   */
  ghost predicate RearmPass(v: RxState, v': RxState, r: RxRing, last: nat, done: bool)
    requires RxWellFormed(v)
  {
    if Owned(v.words[RxIx(r, v.cRx[r])]) then done && v' == v
    else v' == RearmStep(v, r) && (done <==> RxDescAddr(RxIx(r, v'.cRx[r])) == last)
  }

  /** The walk meets a switch-owned cursor slot only when the count says it stops there. */
  lemma WalkStop(v0: RxState, r: RxRing, last: nat, n: Steps, v: RxState)
    requires Walked(v0, r, last, n, false, v) && Owned(v.words[RxIx(r, v.cRx[r])])
    ensures Walked(v0, r, last, n, true, v)
  {
    var c0 := v0.cRx[r];
    var k := RxIx(r, Step(c0, n));
    assert v.cRx[r] == Step(c0, n);
    CursorSlot(v0, r, n);
    assert n < RX_RING_LEN ==> Owned(v0.words[k]);
    CleanupCountStop(v0.words, r, c0, last, n);
  }

  /**
   * At a CPU-owned cursor slot the walk has not finished a turn, re-arming
   * it is step n + 1, and the count goes on exactly as the walk does.
   */
  lemma WalkRearm(v0: RxState, r: RxRing, last: nat, n: Steps, v: RxState, done: bool)
    requires Walked(v0, r, last, n, false, v) && !Owned(v.words[RxIx(r, v.cRx[r])])
    requires done <==> RxDescAddr(RxIx(r, RearmStep(v, r).cRx[r])) == last
    ensures n < RX_RING_LEN && Walked(v0, r, last, n + 1, done, RearmStep(v, r))
  {
    var c0 := v0.cRx[r];
    var k := RxIx(r, Step(c0, n));
    assert v.cRx[r] == Step(c0, n);
    CursorSlot(v0, r, n);
    assert n < RX_RING_LEN && !Owned(v0.words[k]);
    CleanupCountNext(v0.words, r, c0, last, n);
    assert RearmStep(v, r) == RearmAfter(v0, r, n + 1);
  }

  /** A pass of the loop keeps Walked, with one more step unless the slot was switch-owned. */
  lemma WalkStep(v0: RxState, r: RxRing, last: nat, n: Steps, v: RxState, v': RxState, done: bool)
    returns (n': Steps)
    requires Walked(v0, r, last, n, false, v) && RearmPass(v, v', r, last, done)
    ensures Walked(v0, r, last, n', done, v')
    ensures if done then n <= n' <= n + 1 else n' == n + 1
  {
    if Owned(v.words[RxIx(r, v.cRx[r])]) {
      WalkStop(v0, r, last, n, v);
      n' := n;
    } else {
      WalkRearm(v0, r, last, n, v, done);
      n' := n + 1;
    }
  }

  class RingSet {
    const rxR: array<Desc>
    const txR: array<Desc>
    const rxHdr: array<Header>
    const txHdr: array<Header>
    const rxSpace: array<bv8>
    const txSpace: array<bv8>
    /** c_rx / c_tx: the CPU's cursor into each RX / TX ring. */
    var cRx: RxCursors
    var cTx: TxCursors

    /** The six arrays of the ring set are six distinct allocations. */
    ghost predicate Disjoint()
    {
      rxR != txR && rxHdr != txHdr && rxSpace != txSpace &&
      rxR as object != rxHdr && rxR as object != txHdr && rxR as object != rxSpace &&
      rxR as object != txSpace && txR as object != rxHdr && txR as object != txHdr &&
      txR as object != rxSpace && txR as object != txSpace && rxHdr as object != rxSpace &&
      rxHdr as object != txSpace && txHdr as object != rxSpace && txHdr as object != txSpace
    }

    /**
     * Array sizes and distinctness.  The arrays are constants of the ring
     * set, so this holds for good once the ring set is allocated.
     */
    ghost predicate Shape()
    {
      RxShape() && txR.Length == TX_SLOTS && txHdr.Length == TX_SLOTS &&
      rxSpace.Length == RX_SPACE_SIZE && txSpace.Length == TX_SPACE_SIZE &&
      Disjoint()
    }

    /** The part of Shape() the RX side relies on. */
    ghost predicate RxShape()
    {
      rxR.Length == RX_SLOTS && rxHdr.Length == RX_SLOTS && rxR as object != rxHdr
    }

    /** The RX side of the ring set as a value. */
    ghost function View(): RxState
      reads this, rxR, rxHdr
    {
      RxState(rxR[..], rxHdr[..], cRx, cTx)
    }

    /**
     * The ring set's state is well formed: every RX header's buffer, with
     * any 16-bit length, lies inside rx_space.
     */
    ghost predicate Valid()
      reads this, rxHdr
    {
      forall k :: 0 <= k < rxHdr.Length ==> rxHdr[k].buf + 0x1_0000 <= RX_SPACE_SIZE
    }

    /** The zeroed coherent allocation of the ring set. */
    constructor ()
      ensures Shape() && Valid()
      ensures fresh(rxR) && fresh(txR) && fresh(rxHdr) && fresh(txHdr)
      ensures fresh(rxSpace) && fresh(txSpace)
    {
      rxR := new Desc[RX_SLOTS](_ => ZERO_DESC);
      txR := new Desc[TX_SLOTS](_ => ZERO_DESC);
      rxHdr := new Header[RX_SLOTS](_ => ZERO_HEADER);
      txHdr := new Header[TX_SLOTS](_ => ZERO_HEADER);
      rxSpace := new bv8[RX_SPACE_SIZE](_ => 0);
      txSpace := new bv8[TX_SPACE_SIZE](_ => 0);
      cRx := [0, 0];
      cTx := [0, 0];
    }

    /** The inner loop body of the RX set-up: slot j of ring i gets its header and word. */
    method SetupRxSlot(i: RxRing, j: RxSlot)
      requires RxShape() && Valid()
      modifies rxR, rxHdr
      ensures Valid()
      ensures var k := RxIx(i, j);
        rxR[k] == RxSetupWord(i, j) && rxHdr[k] == SetupHeader(old(rxHdr[k]), i, j)
      ensures forall k :: 0 <= k < RX_SLOTS && k != RxIx(i, j) ==>
        rxR[k] == old(rxR[k]) && rxHdr[k] == old(rxHdr[k])
    {
      var k := RxIx(i, j);
      BufOffsetsInside(i, j);
      rxHdr[k] := SetupHeader(rxHdr[k], i, j);
      // All rings owned by the switch, last one wraps
      rxR[k] := DescWord(RxHdrAddr(k), true, j == RX_RING_LEN - 1);
    }

    /**
     * One pass of the first outer loop of rtl83xx_setup_ringbuf: every RX
     * descriptor of ring i is handed to the switch with WRAP only on the last
     * slot, every header gets the product buffer offset, a full frame-buffer
     * size, offset 0 and length 0, and the ring's cursor restarts at 0.
     */
    method SetupRxRing(i: RxRing)
      requires Shape() && Valid()
      modifies this, rxR, rxHdr
      ensures Valid()
      ensures forall j :: 0 <= j < RX_RING_LEN ==>
        rxR[RxIx(i, j)] == RxSetupWord(i, j) &&
        rxHdr[RxIx(i, j)] == SetupHeader(old(rxHdr[RxIx(i, j)]), i, j)
      ensures forall k :: 0 <= k < RX_SLOTS && !(RxIx(i, 0) <= k < RxIx(i + 1, 0)) ==>
        rxR[k] == old(rxR[k]) && rxHdr[k] == old(rxHdr[k])
      ensures cRx == old(cRx)[i := 0] && cTx == old(cTx)
    {
      var j := 0;
      while j < RX_RING_LEN
        invariant 0 <= j <= RX_RING_LEN
        invariant forall j' :: 0 <= j' < j ==>
          rxR[RxIx(i, j')] == RxSetupWord(i, j') &&
          rxHdr[RxIx(i, j')] == SetupHeader(old(rxHdr[RxIx(i, j')]), i, j')
        invariant forall k :: 0 <= k < RX_SLOTS && !(RxIx(i, 0) <= k < RxIx(i, j)) ==>
          rxR[k] == old(rxR[k]) && rxHdr[k] == old(rxHdr[k])
        invariant cRx == old(cRx) && cTx == old(cTx)
        invariant Valid()
      {
        SetupRxSlot(i, j);
        j := j + 1;
      }
      cRx := cRx[i := 0];
    }

    /**
     * One pass of the second outer loop of rtl83xx_setup_ringbuf: every TX
     * descriptor of ring i stays with the CPU, the last one gets WRAP after
     * the inner loop, the headers are set up as on the RX side, and the
     * ring's cursor restarts at 0.
     */
    method SetupTxRing(i: TxRing)
      requires Shape() && Valid()
      modifies this, txR, txHdr
      ensures Valid()
      ensures forall j :: 0 <= j < TX_RING_LEN ==>
        txR[TxIx(i, j)] == TxSetupWord(i, j) &&
        txHdr[TxIx(i, j)] == SetupHeader(old(txHdr[TxIx(i, j)]), i, j)
      ensures forall k :: 0 <= k < TX_SLOTS && !(TxIx(i, 0) <= k < TxIx(i + 1, 0)) ==>
        txR[k] == old(txR[k]) && txHdr[k] == old(txHdr[k])
      ensures cTx == old(cTx)[i := 0] && cRx == old(cRx)
    {
      var j := 0;
      while j < TX_RING_LEN
        invariant 0 <= j <= TX_RING_LEN
        invariant forall j' :: 0 <= j' < j ==>
          txR[TxIx(i, j')] == PlainWord(TxHdrAddr(TxIx(i, j'))) &&
          txHdr[TxIx(i, j')] == SetupHeader(old(txHdr[TxIx(i, j')]), i, j')
        invariant forall k :: 0 <= k < TX_SLOTS && !(TxIx(i, 0) <= k < TxIx(i, j)) ==>
          txR[k] == old(txR[k]) && txHdr[k] == old(txHdr[k])
        invariant cRx == old(cRx) && cTx == old(cTx)
        invariant Valid()
      {
        var k := TxIx(i, j);
        txHdr[k] := SetupHeader(txHdr[k], i, j);
        txR[k] := PlainWord(TxHdrAddr(k));
        j := j + 1;
      }
      // Last header is wrapping around
      txR[TxIx(i, j - 1)] := OrWrap(txR[TxIx(i, j - 1)]);
      cTx := cTx[i := 0];
    }

    /**
     * rtl83xx_setup_ringbuf: every descriptor word gets its set-up value
     * (switch-owned RX, CPU-owned TX, WRAP on each last slot), every header the product buffer offset, size
     * FRAMEBUF_SIZE, offset 0 and length 0, and every cursor is 0.
     */
    method SetupRingbuf()
      requires Shape() && Valid()
      modifies this, rxR, txR, rxHdr, txHdr
      ensures Valid()
      ensures forall r, j :: 0 <= r < RX_NUM_RINGS && 0 <= j < RX_RING_LEN ==>
        rxR[RxIx(r, j)] == RxSetupWord(r, j) &&
        rxHdr[RxIx(r, j)] == SetupHeader(old(rxHdr[RxIx(r, j)]), r, j)
      ensures forall r, j :: 0 <= r < TX_NUM_RINGS && 0 <= j < TX_RING_LEN ==>
        txR[TxIx(r, j)] == TxSetupWord(r, j) &&
        txHdr[TxIx(r, j)] == SetupHeader(old(txHdr[TxIx(r, j)]), r, j)
      ensures cRx == [0, 0] && cTx == [0, 0]
    {
      SetupRxRing(0);
      SetupRxRing(1);
      SetupTxRing(0);
      SetupTxRing(1);
    }

    /**
     * One step of the overflow re-arm: the header under ring r's cursor
     * gets its product buffer offset, a full size and length 0, the
     * descriptor is handed back to the switch, and the cursor advances.
     */
    method RearmSlot(r: RxRing)
      requires RxShape() && Valid()
      modifies this, rxR, rxHdr
      ensures Valid() && View() == RearmStep(old(View()), r)
    {
      var c := cRx[r];
      var k := RxIx(r, c);
      BufOffsetsInside(r, c);
      rxHdr[k] := RearmHeader(rxHdr[k], r, c);
      rxR[k] := RearmWord(r, c);
      cRx := cRx[r := (c + 1) % RX_RING_LEN];
    }

    /**
     * One pass of the do-while of rtl83xx_rb_cleanup on ring r: a
     * switch-owned cursor slot ends the walk and changes nothing; otherwise
     * the slot is re-armed, the cursor advances, and the walk ends when the
     * cursor has reached the hardware pointer `last`.
     */
    method RearmOnce(r: RxRing, last: nat) returns (done: bool)
      requires RxShape() && Valid()
      modifies this, rxR, rxHdr
      ensures Valid() && RearmPass(old(View()), View(), r, last, done)
    {
      if Owned(rxR[RxIx(r, cRx[r])]) {
        return true;
      }
      RearmSlot(r);
      done := RxDescAddr(RxIx(r, cRx[r])) == last;
    }

    /**
     * The overflow re-arm of one RX ring (the body of rtl83xx_rb_cleanup):
     * starting at the cursor, CPU-owned slots get a fresh header and are
     * handed back to the switch until a switch-owned slot or the hardware
     * pointer `last` is reached.  Returns the number of slots re-armed;
     * RearmWords, RearmHdrs and CleanupCountSpec say which slots those are.
     */
    method RearmRing(r: RxRing, last: nat) returns (ghost n: Steps)
      requires RxShape() && Valid()
      modifies this, rxR, rxHdr
      ensures Valid()
      ensures n == CleanupCount(old(rxR[..]), r, old(cRx[r]), last, 0)
      ensures View() == RearmAfter(old(View()), r, n)
    {
      n := 0;
      var done := false;
      while !done
        invariant Valid() && Walked(old(View()), r, last, n, done, View())
        decreases RX_RING_LEN - n, if done then 0 else 1
      {
        label L:
        done := RearmOnce(r, last);
        n := WalkStep(old(View()), r, last, n, old@L(View()), View(), done);
      }
    }
  }
}
