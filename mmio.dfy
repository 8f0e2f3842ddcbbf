/*
 * The memory-mapped register file seen by the drivers: a map from register
 * address to its 32-bit value, plus the ordered list of every write the
 * CPU issued (sw_w32 / writel / regmap_write).  Reads of an address that
 * was never written return 0.  Effects the hardware performs on its own
 * (self-clearing busy bits, data appearing in a data register) are modelled
 * by HwSet, which changes a value without being a CPU write.
 */
module Mmio {

  datatype Write = W(addr: int, val: bv32)

  /** The CPU writes in `ws` applied in order to `m`. */
  function Apply(m: map<int, bv32>, ws: seq<Write>): map<int, bv32>
    decreases |ws|
  {
    if ws == [] then m else Apply(m[ws[0].addr := ws[0].val], ws[1..])
  }

  /** Applying two batches in turn is applying their concatenation. */
  lemma {:induction false} ApplyConcat(m: map<int, bv32>, a: seq<Write>, b: seq<Write>)
    ensures Apply(Apply(m, a), b) == Apply(m, a + b)
    decreases |a|
  {
    if a != [] {
      assert (a + b)[1..] == a[1..] + b;
      ApplyConcat(m[a[0].addr := a[0].val], a[1..], b);
    } else {
      assert a + b == b;
    }
  }

  /** One more write at the end of a batch updates its address last. */
  lemma ApplySnoc(m: map<int, bv32>, ws: seq<Write>, w: Write)
    ensures Apply(m, ws + [w]) == Apply(m, ws)[w.addr := w.val]
  {
    ApplyConcat(m, ws, [w]);
  }

  /** After a batch of writes, an address reads as the last value written to it. */
  lemma {:induction false} ApplyLastWrite(m: map<int, bv32>, ws: seq<Write>, i: nat)
    requires i < |ws|
    requires forall j :: i < j < |ws| ==> ws[j].addr != ws[i].addr
    ensures ws[i].addr in Apply(m, ws) && Apply(m, ws)[ws[i].addr] == ws[i].val
    decreases |ws|
  {
    if i == 0 {
      ApplyUntouched(m[ws[0].addr := ws[0].val], ws[1..], ws[0].addr);
    } else {
      ApplyLastWrite(m[ws[0].addr := ws[0].val], ws[1..], i - 1);
    }
  }

  /** An address no write in the batch touches keeps its value. */
  lemma {:induction false} ApplyUntouched(m: map<int, bv32>, ws: seq<Write>, a: int)
    requires forall j :: 0 <= j < |ws| ==> ws[j].addr != a
    ensures (a in Apply(m, ws)) == (a in m)
    ensures a in m ==> Apply(m, ws)[a] == m[a]
    decreases |ws|
  {
    if ws != [] {
      ApplyUntouched(m[ws[0].addr := ws[0].val], ws[1..], a);
    }
  }

  /** Appending runs of writes one after another appends them together. */
  lemma AppendTwo(t: seq<Write>, a: seq<Write>, b: seq<Write>)
    ensures t + a + b == t + (a + b)
  {
  }

  lemma AppendThree(t: seq<Write>, a: seq<Write>, b: seq<Write>, c: seq<Write>)
    ensures t + a + b + c == t + (a + b + c)
  {
  }

  /** Writing back the value a register holds changes nothing. */
  lemma UpdateUnchanged(m: map<int, bv32>, a: int)
    requires a in m
    ensures m[a := m[a]] == m
  {
  }

  /** A second write of a register hides the first. */
  lemma UpdateSame(m: map<int, bv32>, a: int, x: bv32, y: bv32)
    ensures m[a := x][a := y] == m[a := y]
  {
  }

  /** Writing a twice around a write of another register b leaves what the last two writes say. */
  lemma UpdateTwice(m: map<int, bv32>, a: int, b: int, x: bv32, y: bv32, z: bv32)
    requires a != b
    ensures m[a := x][b := y][a := z] == m[a := z][b := y]
  {
  }

  class RegFile {
    var regs: map<int, bv32>
    var trace: seq<Write>

    constructor (init: map<int, bv32>)
      ensures regs == init && trace == []
    {
      regs := init;
      trace := [];
    }

    function Read(a: int): bv32
      reads this
    {
      if a in regs then regs[a] else 0
    }

    /** A CPU write: the value is stored and the write is recorded. */
    method Write(a: int, v: bv32)
      modifies this
      ensures regs == old(regs)[a := v]
      ensures trace == old(trace) + [W(a, v)]
    {
      regs := regs[a := v];
      trace := trace + [W(a, v)];
    }

    /** A change made by the hardware itself; not part of the CPU's write trace. */
    method HwSet(a: int, v: bv32)
      modifies this
      ensures regs == old(regs)[a := v]
      ensures trace == old(trace)
    {
      regs := regs[a := v];
    }

    /** sw_w32_mask(clear, set, reg): read, clear some bits, set others, write back. */
    method Mask(clear: bv32, setBits: bv32, a: int)
      modifies this
      ensures regs == old(regs)[a := (old(Read(a)) & !clear) | setBits]
      ensures trace == old(trace) + [W(a, (old(Read(a)) & !clear) | setBits)]
    {
      Write(a, (Read(a) & !clear) | setBits);
    }
  }
}
