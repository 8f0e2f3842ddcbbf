/*
 * Read-modify-write of a 32-bit register: the set-bits and clear-bits
 * idioms every driver here uses, and what each leaves in the register.
 */
module Bits {
  /** v with the bits of m turned on (`v |= m`). */
  function BitSet(v: bv32, m: bv32): bv32
  {
    v | m
  }

  /** v with the bits of m turned off (`v &= ~m`). */
  function BitClear(v: bv32, m: bv32): bv32
  {
    v & !m
  }

  /** Whether v has any bit of m set (`v & m`, read as a condition). */
  predicate AnyOf(v: bv32, m: bv32)
  {
    v & m != 0
  }

  /** Set (enable) or clear (disable) the bits of m, keeping all others. */
  function Toggle(v: bv32, m: bv32, enable: bool): bv32
  {
    if enable then BitSet(v, m) else BitClear(v, m)
  }

  /** Or-ing m into v turns the bits of m on and leaves the others alone. */
  lemma SetFacts(v: bv32, m: bv32)
    ensures (v | m) & m == m && (v | m) & !m == v & !m
  {
  }

  /** And-ing v with !m turns the bits of m off and leaves the others alone. */
  lemma ClearFacts(v: bv32, m: bv32)
    ensures (v & !m) & m == 0 && (v & !m) & !m == v & !m
  {
  }

  /** Clearing every bit leaves zero. */
  lemma AllCleared(v: bv32)
    ensures BitClear(v, 0xffffffff) == 0
  {
  }

  /** A toggle turns every bit of m on when enabling and off when disabling. */
  lemma ToggleSets(v: bv32, m: bv32, enable: bool)
    ensures Toggle(v, m, enable) & m == (if enable then m else 0)
  {
    if enable { SetFacts(v, m); } else { ClearFacts(v, m); }
  }

  /** A toggle keeps every bit outside m. */
  lemma ToggleKeeps(v: bv32, m: bv32, enable: bool)
    ensures Toggle(v, m, enable) & !m == v & !m
  {
    if enable { SetFacts(v, m); } else { ClearFacts(v, m); }
  }

  /** The register after write-1-to-clear writes of the masks ms, in order. */
  function ClearAll(v: bv32, ms: seq<bv32>): bv32
    decreases |ms|
  {
    if |ms| == 0 then v else BitClear(ClearAll(v, ms[..|ms| - 1]), ms[|ms| - 1])
  }

  /** Every bit of the masks ms. */
  function Union(ms: seq<bv32>): bv32
    decreases |ms|
  {
    if |ms| == 0 then 0 else Union(ms[..|ms| - 1]) | ms[|ms| - 1]
  }

  lemma ClearNone(v: bv32)
    ensures v & !0 == v
  {
  }

  lemma ClearTwo(v: bv32, u: bv32, m: bv32)
    ensures (v & !u) & !m == v & !(u | m)
  {
  }

  lemma CoverLeft(x: bv32, u: bv32, m: bv32)
    ensures x & !u == 0 ==> x & !(u | m) == 0
  {
  }

  lemma CoverSelf(u: bv32, m: bv32)
    ensures m & !(u | m) == 0
  {
  }

  lemma ClearedCovered(v: bv32, u: bv32, m: bv32)
    ensures m & !u == 0 ==> (v & !u) & m == 0
  {
  }

  /** A sequence of acknowledgements clears, at once, every bit of every mask in it. */
  lemma {:induction false} ClearAllUnion(v: bv32, ms: seq<bv32>)
    ensures ClearAll(v, ms) == v & !Union(ms)
    decreases |ms|
  {
    if |ms| == 0 {
      ClearNone(v);
    } else {
      ClearAllUnion(v, ms[..|ms| - 1]);
      ClearTwo(v, Union(ms[..|ms| - 1]), ms[|ms| - 1]);
    }
  }

  /** Every mask of ms lies inside their union. */
  lemma {:induction false} UnionCovers(ms: seq<bv32>, i: nat)
    requires i < |ms|
    ensures ms[i] & !Union(ms) == 0
    decreases |ms|
  {
    var init := ms[..|ms| - 1];
    if i == |ms| - 1 {
      CoverSelf(Union(init), ms[i]);
    } else {
      UnionCovers(init, i);
      CoverLeft(ms[i], Union(init), ms[|ms| - 1]);
    }
  }

  /** After the acknowledgements ms, no bit of any mask in ms is still set. */
  lemma AckedAreClear(v: bv32, ms: seq<bv32>, i: nat)
    requires i < |ms|
    ensures ClearAll(v, ms) & ms[i] == 0
  {
    ClearAllUnion(v, ms);
    UnionCovers(ms, i);
    ClearedCovered(v, Union(ms), ms[i]);
  }

  /** The acknowledgements ms keep every bit outside their masks. */
  lemma AckKeepsOthers(v: bv32, ms: seq<bv32>)
    ensures ClearAll(v, ms) & !Union(ms) == v & !Union(ms)
  {
    ClearAllUnion(v, ms);
    ClearFacts(v, Union(ms));
  }

  /** Acknowledging one more mask clears its bits from what the earlier ones left. */
  lemma ClearAllSnoc(v: bv32, ms: seq<bv32>, m: bv32)
    ensures ClearAll(v, ms + [m]) == BitClear(ClearAll(v, ms), m)
  {
    assert (ms + [m])[..|ms|] == ms;
  }
}
