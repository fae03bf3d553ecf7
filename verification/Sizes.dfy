/** Sizes of the allocator: request padding and the size-to-bin index.

    The C macros work on unsigned words; a mask `& ~15` is written here as
    rounding down to a multiple of 16, a right shift as a division by a power
    of two and a left shift as a multiplication.  The 32-bit wrap-around of
    `largebin_index` (its parameter is `unsigned int`) is kept explicitly. */
module Sizes {
  import opened Powers

  const SIZE_SZ: nat := 8
  const ALIGNMENT: nat := 16
  const ALIGN_MASK: nat := 15
  const MINSIZE: nat := 32

  const NBINS: nat := 96
  const NSMALLBINS: nat := 32
  const MIN_LARGE_SIZE: nat := 256
  const NFASTBINS: nat := 11

  const WORD32: nat := 0x1_0000_0000
  const WORD64: nat := 0x1_0000_0000_0000_0000

  // ---------------------------------------------------------------- requests

  /** `REQUEST_OUT_OF_RANGE`: the request would wrap when padded. */
  predicate OutOfRange(req: nat) {
    req >= WORD64 - 2 * MINSIZE
  }

  function RoundDown16(x: nat): nat {
    x / 16 * 16
  }

  /** `request2size`: pad a request to a chunk size. */
  function Request2Size(req: nat): nat {
    if req + SIZE_SZ + ALIGN_MASK < MINSIZE then MINSIZE
    else RoundDown16(req + SIZE_SZ + ALIGN_MASK)
  }

  /** A size a chunk may have. */
  predicate LegalSize(s: int) {
    s >= MINSIZE && s % ALIGNMENT == 0
  }

  /** The padded size is the least legal size with room for the request and its header word. */
  lemma Request2SizeLeast(req: nat, s: int)
    ensures LegalSize(Request2Size(req)) && Request2Size(req) >= req + SIZE_SZ
    ensures LegalSize(s) && s >= req + SIZE_SZ ==> s >= Request2Size(req)
  {
    if LegalSize(s) && s >= req + SIZE_SZ && req + SIZE_SZ + ALIGN_MASK >= MINSIZE {
      assert s == s / 16 * 16;
      assert (req + SIZE_SZ + ALIGN_MASK) / 16 <= s / 16;
    }
  }

  /** The retry of `sYSMALLOc` and the fallback of `rEALLOc` ask for `nb - 15` bytes,
      which is padded back to exactly `nb`. */
  lemma RetryAsksForSame(nb: int)
    requires LegalSize(nb)
    ensures nb - ALIGN_MASK >= 0 && Request2Size(nb - ALIGN_MASK) == nb
  {
    assert (nb + 8) / 16 == nb / 16;
  }

  // ---------------------------------------------------------------- bins

  /** Bit k (weight w = 2^k) of x, as the C expression `x & w`. */
  function MaskBit(x: nat, w: nat): nat
    requires w > 0
  {
    x / w % 2 * w
  }

  /** 32-bit subtraction. */
  function Sub32(x: nat, y: nat): nat
    requires x < WORD32 && y < WORD32
  {
    (x + (WORD32 - y)) % WORD32
  }

  /** One halving step of the branch-free code: `((x - limit) >> 16) & w` is w exactly when
      x lies below the limit, because only then the 32-bit subtraction wraps. */
  function Step(x: nat, limit: nat, w: nat): nat
    requires x < WORD32 && limit < WORD32 && w > 0
  {
    MaskBit(Sub32(x, limit) / 0x10000, w)
  }

  lemma StepCompares(x: nat, limit: nat, w: nat)
    requires x < 0x10000 && 0 < limit < 0x10000 && w in {2, 4, 8}
    ensures Step(x, limit, w) == if x < limit then w else 0
  {
    if x < limit {
      assert Sub32(x, limit) == x + WORD32 - limit;
      assert (x + WORD32 - limit) / 0x10000 == 0xFFFF;
      assert 0xFFFF / 2 % 2 == 1 && 0xFFFF / 4 % 2 == 1 && 0xFFFF / 8 % 2 == 1;
    } else {
      assert Sub32(x, limit) == x - limit;
      assert (x - limit) / 0x10000 == 0;
    }
  }

  /** The 32-bit variable m of `largebin_index` just before the final return. */
  function HighestBit(x0: nat): nat
    requires x0 < 0x10000
  {
    var n0 := Step(x0, 0x100, 8);
    var x1 := Shl(x0, n0);
    var m1 := Step(x1, 0x1000, 4);
    var x2 := Shl(x1, m1);
    var m2 := Step(x2, 0x4000, 2);
    Finish(Shl(x2, m2) / 0x4000, n0 + m1 + m2)
  }

  /** 32-bit left shift. */
  function Shl(x: nat, k: nat): nat {
    x * Pow2(k) % WORD32
  }

  /** `13 - n + (x & ~(x >> 1))` for the two-bit x that is left, in 32-bit arithmetic. */
  function Finish(x: nat, n: nat): nat
    requires n <= 14
  {
    var low := if x % 4 >= 2 then 2 else x % 4;
    (13 + WORD32 - n + low) % WORD32
  }

  lemma Pow2Values()
    ensures Pow2(0) == 1 && Pow2(1) == 2 && Pow2(2) == 4 && Pow2(3) == 8
    ensures Pow2(4) == 16 && Pow2(5) == 32 && Pow2(6) == 64 && Pow2(7) == 128
    ensures Pow2(8) == 256 && Pow2(9) == 512 && Pow2(10) == 1024 && Pow2(11) == 2048
    ensures Pow2(12) == 4096 && Pow2(13) == 8192 && Pow2(14) == 16384 && Pow2(15) == 32768
    ensures Pow2(16) == 65536
  {
    assert Pow2(4) == 2 * Pow2(3);
    assert Pow2(8) == 2 * Pow2(7);
    assert Pow2(12) == 2 * Pow2(11);
  }

  predicate IsLog2(x: nat, m: nat) {
    m <= 15 && Pow2(m) <= x < Pow2(m + 1)
  }

  lemma LogFromShift(x: nat, k: nat, m: nat)
    requires k in {0, 2, 4, 6, 8, 10, 12, 14} && m <= 15
    requires (m + k == 14 && 0x4000 <= x * Pow2(k) < 0x8000) || (m + k == 15 && 0x8000 <= x * Pow2(k) < 0x10000)
    ensures IsLog2(x, m)
  {
    Pow2Values();
  }

  lemma FinishLast(x: nat, n: nat)
    requires n <= 14 && 1 <= x < 4
    ensures Finish(x, n) == (if x >= 2 then 15 else 14) - n
  {
  }

  /** The branch-free code computes floor(log2(x)). */
  lemma HighestBitIsLog2(x: nat)
    requires 1 <= x < 0x10000
    ensures IsLog2(x, HighestBit(x))
  {
    hide Step, Shl, Finish;
    Pow2Values();
    StepCompares(x, 0x100, 8);
    var n0 := Step(x, 0x100, 8);
    var x1 := if n0 == 8 then 256 * x else x;
    assert x * Pow2(n0) == x1;
    ShlFits(x, n0);
    StepCompares(x1, 0x1000, 4);
    var m1 := Step(x1, 0x1000, 4);
    var x2 := if m1 == 4 then 16 * x1 else x1;
    assert x1 * Pow2(m1) == x2;
    ShlFits(x1, m1);
    StepCompares(x2, 0x4000, 2);
    var m2 := Step(x2, 0x4000, 2);
    var x3 := if m2 == 2 then 4 * x2 else x2;
    assert x2 * Pow2(m2) == x3;
    ShlFits(x2, m2);
    FinishLast(x3 / 0x4000, n0 + m1 + m2);
    assert x * Pow2(n0 + m1 + m2) == x3;
    LogFromShift(x, n0 + m1 + m2, HighestBit(x));
  }

  lemma ShlFits(x: nat, k: nat)
    requires x * Pow2(k) < WORD32
    ensures Shl(x, k) == x * Pow2(k)
  {
  }

  /** `largebin_index`; the argument is truncated to 32 bits as the C parameter type does. */
  function LargeBinIndex(size: nat): nat {
    var sz := size % WORD32;
    var x := sz / 256;
    if x >= 0x10000 then NBINS - 1
    else FinalIndex(sz, HighestBit(x))
  }

  /** The return expression of `largebin_index`, in 32-bit arithmetic. */
  function FinalIndex(sz: nat, m: nat): nat {
    (NSMALLBINS + m * 4 % WORD32 + sz / Pow2((m + 6) % WORD32) % 4) % WORD32
  }

  /** `bin_index`. */
  function BinIndex(size: nat): nat {
    if size < MIN_LARGE_SIZE then size / 8 else LargeBinIndex(size)
  }

  /** Reference definition of the index of a large size below 2^24: with 2^e <= size < 2^(e+1),
      four bins per power of two, picked by the two bits below the leading one. */
  predicate IsLargeBin(size: nat, e: nat, quarter: nat, i: nat) {
    && 8 <= e <= 23 && quarter < 4
    && Pow2(e - 2) * (4 + quarter) <= size < Pow2(e - 2) * (5 + quarter)
    && i == NSMALLBINS + 4 * (e - 8) + quarter
  }

  lemma Pow2Adds(a: nat, b: nat)
    ensures Pow2(a + b) == Pow2(a) * Pow2(b)
  {
    if b > 0 {
      Pow2Adds(a, b - 1);
      calc {
        Pow2(a + b);
        2 * Pow2(a + (b - 1));
        2 * (Pow2(a) * Pow2(b - 1));
        Pow2(a) * (2 * Pow2(b - 1));
      }
    }
  }

  lemma LeadingDigit(size: nat, w: nat)
    requires w > 0 && 4 * w <= size < 8 * w
    ensures 4 <= size / w < 8 && w * (size / w) <= size < w * (size / w + 1)
  {
    var d := size / w;
    assert size == w * d + size % w;
    assert w * d > w * 3;
    assert w * d < w * 8;
  }

  lemma FinalIndexValue(size: nat, m: nat, w: nat)
    requires m <= 15 && w == Pow2(m + 6) && 4 <= size / w < 8
    ensures FinalIndex(size, m) == NSMALLBINS + 4 * m + size / w - 4
  {
    hide Pow2;
    assert (m + 6) % WORD32 == m + 6;
    var d := size / w;
    assert d % 4 == d - 4;
    WrapsNot(4 * m);
    WrapsNot(NSMALLBINS + 4 * m + (d - 4));
  }

  lemma WrapsNot(x: nat)
    requires x < WORD32
    ensures x % WORD32 == x
  {
  }

  lemma FinalIndexShape(size: nat, m: nat)
    requires IsLog2(size / 256, m)
    ensures var q := size / Pow2(m + 6); 4 <= q && IsLargeBin(size, m + 8, q - 4, FinalIndex(size, m))
  {
    var w := Pow2(m + 6);
    var v := Pow2(m);
    assert 256 * v == 4 * w && Pow2(m + 1) == 2 * v by {
      Pow2Adds(6, m);
      Pow2Values();
    }
    assert 4 * w <= size < 8 * w;
    LeadingDigit(size, w);
    FinalIndexValue(size, m, w);
  }

  /** Every large size below 2^24 lies in the bin of its power of two and quarter. */
  lemma LargeBinShape(size: nat) returns (e: nat, q: nat)
    requires MIN_LARGE_SIZE <= size < 0x100_0000
    ensures IsLargeBin(size, e, q, LargeBinIndex(size))
  {
    hide HighestBit, FinalIndex, IsLog2;
    assert size % WORD32 == size;
    HighestBitIsLog2(size / 256);
    var m := HighestBit(size / 256);
    FinalIndexShape(size, m);
    e, q := m + 8, size / Pow2(m + 6) - 4;
  }

  lemma Pow2Monotone(a: nat, b: nat)
    requires a <= b
    ensures Pow2(a) <= Pow2(b)
  {
    if a < b { Pow2Monotone(a, b - 1); }
  }

  lemma ShapesOrdered(s: nat, t: nat, e: nat, q: nat, i: nat, f: nat, r: nat, j: nat)
    requires IsLargeBin(s, e, q, i) && IsLargeBin(t, f, r, j) && i > j
    ensures s > t
  {
    var w, v := Pow2(f - 2), Pow2(e - 2);
    if e > f {
      Pow2Monotone(f - 1, e - 2);
      assert v >= 2 * w && v * (4 + q) >= 8 * w >= w * (5 + r);
    } else {
      assert e == f && q > r;
      assert w * (4 + q) >= w * (5 + r);
    }
  }

  /** Below 2^32 the bin index never leaves 0..95, is at least 32 exactly for the large sizes,
      and grows with the size. */
  lemma BinIndexMonotone(s: nat, t: nat)
    requires s <= t < WORD32
    ensures BinIndex(s) <= BinIndex(t) < NBINS
    ensures BinIndex(t) >= NSMALLBINS <==> t >= MIN_LARGE_SIZE
  {
    hide LargeBinIndex;
    BinIndexRange(s);
    BinIndexRange(t);
    if MIN_LARGE_SIZE <= s && t < 0x100_0000 {
      var e, q := LargeBinShape(s);
      var f, r := LargeBinShape(t);
      if LargeBinIndex(s) > LargeBinIndex(t) {
        ShapesOrdered(s, t, e, q, LargeBinIndex(s), f, r, LargeBinIndex(t));
      }
    }
  }

  lemma BinIndexRange(t: nat)
    requires t < WORD32
    ensures t < MIN_LARGE_SIZE ==> BinIndex(t) < NSMALLBINS
    ensures MIN_LARGE_SIZE <= t ==> NSMALLBINS <= BinIndex(t) < NBINS
    ensures 0x100_0000 <= t ==> BinIndex(t) == NBINS - 1
  {
    if MIN_LARGE_SIZE <= t < 0x100_0000 {
      hide LargeBinIndex;
      var e, q := LargeBinShape(t);
    } else if 0x100_0000 <= t {
      assert t % WORD32 == t && t / 256 >= 0x10000;
    }
  }

  /** A chunk of a higher bin is strictly larger than any chunk of a lower bin, and a small
      bin holds one legal size only. */
  lemma BinsOrderSizes(s: nat, t: nat)
    requires s < WORD32 && t < WORD32
    ensures BinIndex(s) < BinIndex(t) ==> s < t
    ensures LegalSize(s) && LegalSize(t) && BinIndex(s) == BinIndex(t) < NSMALLBINS ==> s == t
  {
    BinIndexRange(s);
    BinIndexRange(t);
    hide LargeBinIndex;
    if t <= s { BinIndexMonotone(t, s); }
  }

  /** What the search of the higher bins relies on: any chunk found there is big enough. */
  ghost predicate HigherBinsFit(nb: nat) {
    forall s: nat {:trigger BinIndex(s)} ::
      LegalSize(s) && BinIndex(s) > BinIndex(nb) ==> s >= nb
  }

  lemma FinalIndexBound(sz: nat, m: nat)
    requires m <= 15 || m == WORD32 - 1
    ensures FinalIndex(sz, m) < NBINS
  {
    hide Pow2;
    var q := sz / Pow2((m + 6) % WORD32) % 4;
    assert 0 <= q < 4;
    if m == WORD32 - 1 { assert m * 4 % WORD32 == WORD32 - 4; }
  }

  /** Whatever the size, its index is one of a bin. */
  lemma BinIndexBound(t: nat)
    ensures BinIndex(t) < NBINS
  {
    var x := t % WORD32 / 256;
    if x == 0 {
      HighestBitOfZero();
      hide HighestBit, FinalIndex;
      FinalIndexBound(t % WORD32, WORD32 - 1);
    } else if x < 0x10000 {
      HighestBitIsLog2(x);
      var m := HighestBit(x);
      hide HighestBit, FinalIndex;
      FinalIndexBound(t % WORD32, m);
    }
  }

  /** `malloc` takes the last chunk of a higher bin without comparing its size.  This is right
      exactly when the padded request fits 32 bits (or already indexes the last bin), since
      `largebin_index` drops the upper half of its argument. */
  lemma HigherBinsFitExactly(nb: nat)
    requires LegalSize(nb)
    ensures HigherBinsFit(nb) <==> nb < WORD32 || BinIndex(nb) >= NBINS - 1
  {
    hide LargeBinIndex;
    if nb < WORD32 {
      forall s: nat | LegalSize(s) && BinIndex(s) > BinIndex(nb) ensures s >= nb {
        if s < WORD32 { BinsOrderSizes(nb, s); }
      }
    } else if BinIndex(nb) >= NBINS - 1 {
      forall s: nat | LegalSize(s) ensures BinIndex(s) <= BinIndex(nb) {
        BinIndexBound(s);
      }
    } else {
      var s := WORD32 - 16;
      BinIndexRange(s);
      assert LegalSize(s) && BinIndex(s) > BinIndex(nb) && s < nb;
    }
  }

  lemma HighestBitOfZero()
    ensures HighestBit(0) == WORD32 - 1
  {
    StepCompares(0, 0x100, 8);
    StepCompares(0, 0x1000, 4);
    StepCompares(0, 0x4000, 2);
    hide Step;
    assert Shl(0, 8) == 0 && Shl(0, 4) == 0 && Shl(0, 2) == 0;
  }

  lemma HugeRequestIndex()
    ensures LargeBinIndex(WORD32 + 32) == FinalIndex(32, WORD32 - 1) == 29
  {
    hide HighestBit;
    assert (WORD32 + 32) % WORD32 == 32 && 32 / 256 == 0;
    HighestBitOfZero();
    Pow2Values();
    assert (WORD32 - 1 + 6) % WORD32 == 5;
    assert (WORD32 - 1) * 4 % WORD32 == WORD32 - 4;
  }

  /** A request of 4 GiB and a little is sent to bin 29, below the bin of 256-byte chunks. */
  lemma HugeRequestMisfiled()
    ensures BinIndex(WORD32 + 32) == 29 && BinIndex(MIN_LARGE_SIZE) >= NSMALLBINS
    ensures !HigherBinsFit(WORD32 + 32)
  {
    hide LargeBinIndex, FinalIndex;
    HugeRequestIndex();
    BinIndexRange(MIN_LARGE_SIZE);
    HigherBinsFitExactly(WORD32 + 32);
  }
}
