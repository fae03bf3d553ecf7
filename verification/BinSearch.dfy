/** The bitmap-guided search for the next non-empty bin. */
module BinSearch {
  import opened Sizes
  import opened Layout
  import opened Shelves
  import opened Binmap

  predicate Noted(m: seq<Word32>, bins: seq<List>, i: int)
    requires |m| == 4 && 0 <= i < |bins| <= 128
  {
    bins[i] != [] ==> Marked(m, i)
  }

  /** Every non-empty bin is marked; empty bins may be. The trailing word stays zero. */
  ghost predicate MapOK(m: seq<Word32>, bins: seq<List>) {
    && |m| == 4 && m[3] == 0 && |bins| == NBINS
    && (forall i {:trigger Noted(m, bins, i)} :: 2 <= i < |bins| ==> Noted(m, bins, i))
  }

  /** No bin in [lo, hi) holds a chunk. */
  ghost predicate EmptyBetween(bins: seq<List>, lo: int, hi: int) {
    forall i :: lo <= i < hi && 0 <= i < |bins| ==> bins[i] == []
  }

  /** No bin in [lo, hi) is marked. */
  ghost predicate ClearBetween(m: seq<Word32>, lo: int, hi: int)
    requires |m| == 4
  {
    forall i {:trigger Marked(m, i)} :: lo <= i < hi && 0 <= i < NBINS ==> !Marked(m, i)
  }

  /** m is m0 without the marks in [lo, hi). */
  ghost predicate Cleared(m0: seq<Word32>, m: seq<Word32>, lo: int, hi: int)
    requires |m0| == |m| == 4
  {
    forall i {:trigger Marked(m, i)} :: 0 <= i < NBINS ==> (Marked(m, i) <==> Marked(m0, i) && !(lo <= i < hi))
  }

  ghost predicate MarksCleared(m0: seq<Word32>, m: seq<Word32>, lo: int, hi: int) {
    |m0| == |m| == 4 && Cleared(m0, m, lo, hi)
  }

  lemma ClearJoin(m: seq<Word32>, lo: int, mid: int, hi: int, hi': int)
    requires |m| == 4 && ClearBetween(m, lo, mid) && ClearBetween(m, mid, hi) && hi' <= hi
    ensures ClearBetween(m, lo, hi')
  {
  }

  /** Unmarked bins are skipped. */
  lemma Advance(m0: seq<Word32>, m: seq<Word32>, bins: seq<List>, lo: int, b: int, hi: int)
    requires MapOK(m, bins) && |m0| == 4 && 2 <= lo <= b <= hi && ClearBetween(m, b, hi)
    requires EmptyBetween(bins, lo, b) && Cleared(m0, m, lo, b)
    ensures EmptyBetween(bins, lo, hi) && Cleared(m0, m, lo, hi)
  {
    forall i | lo <= i < hi && 0 <= i < |bins| ensures bins[i] == [] { assert Noted(m, bins, i); }
  }

  lemma ClearedOne(m0: seq<Word32>, m: seq<Word32>, lo: int, b: nat)
    requires |m0| == |m| == 4 && Cleared(m0, m, lo, b) && lo <= b < NBINS
    ensures Cleared(m0, UnmarkBin(m, b), lo, b + 1)
  {
    hide Has, Drop, Bit;
    var m' := UnmarkBin(m, b);
    forall i {:trigger Marked(m', i)} | 0 <= i < NBINS
      ensures Marked(m', i) <==> Marked(m0, i) && !(lo <= i < b + 1)
    {
      MarkOne(m, b, i);
      assert Marked(m, i) <==> Marked(m0, i) && !(lo <= i < b);
    }
  }

  /** `last(b) == b`. */
  lemma EmptyRing(fd: Words, bk: Words, bins: seq<List>, i: int)
    requires |bins| == NBINS && 1 <= i < NBINS && Rings(fd, bk, bins) && Bin(i) !in bins[i]
    ensures Rd(bk, Bin(i)) == Node(Bin(i), bins[i], |bins[i]| - 1)
    ensures Rd(fd, Bin(i)) == Node(Bin(i), bins[i], 0)
    ensures Rd(bk, Bin(i)) == Bin(i) <==> bins[i] == []
  {
    assert RingAt(fd, bk, bins, i);
    assert Arc(fd, bk, Bin(i), bins[i], |bins[i]| - 1);
    assert Arc(fd, bk, Bin(i), bins[i], -1);
  }

  /** A word without set bits from k on has no marks behind it. */
  lemma SkipRest(m: seq<Word32>, block: nat, k: nat)
    requires |m| == 4 && block < 4
    requires k >= 32 || m[block] == 0 || Past(Bit(k), m[block])
    ensures ClearBetween(m, 32 * block + k, 32 * (block + 1))
  {
    hide Bit, Has, Past;
    forall i {:trigger Marked(m, i)} | 32 * block + k <= i < 32 * (block + 1) && 0 <= i < NBINS ensures !Marked(m, i) {
      var j := i - 32 * block;
      assert i / 32 == block && i % 32 == j;
      if m[block] == 0 { EmptyWord(j); } else { NoneAbove(m[block], k, j); }
    }
  }

  lemma UnmarkEmpty(m: seq<Word32>, bins: seq<List>, i: int)
    requires MapOK(m, bins) && 0 <= i < NBINS && bins[i] == []
    ensures MapOK(UnmarkBin(m, i), bins)
  {
    hide Has, Drop, Bit;
    var m' := UnmarkBin(m, i);
    forall j {:trigger Noted(m', bins, j)} | 2 <= j < |bins| ensures Noted(m', bins, j) {
      assert Noted(m, bins, j);
      MarkOne(m, i, j);
    }
    MarkOne(m, i, i);
  }

  /** Skip to the next block with a set bit. */
  method NextBlock(m: seq<Word32>, block0: nat) returns (block: nat)
    requires |m| == 4 && block0 < 4
    ensures block0 < block && (block < 3 ==> m[block] != 0)
    ensures ClearBetween(m, 32 * (block0 + 1), 32 * block)
  {
    hide Bit, Has, Past;
    block := block0 + 1;
    while block < 3 && m[block] == 0
      invariant block0 < block <= 4
      invariant ClearBetween(m, 32 * (block0 + 1), 32 * block)
    {
      SkipRest(m, block, 0);
      block := block + 1;
    }
  }

  /** From a bin on, the first one in the block that is marked; the block has one. */
  method NextMarked(m: seq<Word32>, block: nat, b0: nat, bit0: Word32) returns (b: nat, bit: Word32)
    requires |m| == 4 && block < 3 && 32 * block <= b0 < 32 * block + 32
    requires bit0 == Bit(b0 - 32 * block) && !Past(bit0, m[block])
    ensures b0 <= b < 32 * block + 32 && bit == Bit(b - 32 * block) && Hits(bit, m[block])
    ensures ClearBetween(m, b0, b)
  {
    hide Bit, Past, Hits, Shift;
    b, bit := b0, bit0;
    while !Hits(bit, m[block])
      invariant b0 <= b < 32 * block + 32 && bit == Bit(b - 32 * block) && !Past(bit, m[block])
      invariant ClearBetween(m, b0, b)
      decreases 128 - b
    {
      assert b / 32 == block && b % 32 == b - 32 * block;
      SomeAbove(m[block], b - 32 * block);
      assert !Marked(m, b);
      BitStep(b - 32 * block);
      b, bit := b + 1, Shift(bit);
    }
  }

  lemma EmptyMore(bins: seq<List>, lo: int, b: int)
    requires EmptyBetween(bins, lo, b) && (0 <= b < |bins| ==> bins[b] == [])
    ensures EmptyBetween(bins, lo, b + 1)
  {
  }

  lemma NothingYet(m: seq<Word32>, bins: seq<List>, i: int)
    requires |m| == 4
    ensures EmptyBetween(bins, i, i) && Cleared(m, m, i, i)
  {
  }

  /** The search of `malloc` from bin idx upwards: it finds the first non-empty bin that a linear
      scan would find, or NBINS, and clears the marks of empty bins it meets on the way. */
  method FindBin(m0: seq<Word32>, fd: Words, bk: Words, idx: nat, ghost bins: seq<List>)
    returns (m: seq<Word32>, b: nat)
    requires MapOK(m0, bins) && Rings(fd, bk, bins)
    requires forall i :: 1 <= i < NBINS ==> Bin(i) !in bins[i]
    requires 2 <= idx <= NBINS
    ensures MapOK(m, bins)
    ensures idx <= b <= NBINS && EmptyBetween(bins, idx, b) && (b < NBINS ==> bins[b] != [])
    ensures MarksCleared(m0, m, idx, b)
  {
    hide Bit, Has, Past, Hits, Shift, Drop, Rd, Node, Rings, EmptyBetween, ClearBetween, Cleared;
    assert EmptyBetween(bins, idx, idx) && Cleared(m0, m0, idx, idx) by { NothingYet(m0, bins, idx); }
    m, b := m0, idx;
    var block := idx / 32;
    var bit := Bit(idx % 32);
    while true
      invariant MapOK(m, bins) && block < 4 && 32 * block <= b <= 32 * block + 32 && idx <= b <= NBINS
      invariant bit == if b < 32 * block + 32 then Bit(b - 32 * block) else 0
      invariant EmptyBetween(bins, idx, b) && Cleared(m0, m, idx, b)
      decreases 128 - b
    {
      PastLast(1);
      if Past(bit, m[block]) {
        SkipRest(m, block, b - 32 * block);
        ghost var b0, block0 := b, block;
        block := NextBlock(m, block);
        if block >= 3 {
          b := NBINS;
          ClearJoin(m, b0, 32 * (block0 + 1), 32 * block, b);
          Advance(m0, m, bins, idx, b0, b);
          return;
        }
        b, bit := 32 * block, 1;
        ClearJoin(m, b0, 32 * (block0 + 1), 32 * block, b);
        Advance(m0, m, bins, idx, b0, b);
        BitStep(0);
        PastLast(m[block]);
      }
      PastLast(1);
      if b == 32 * block + 32 && m[block] != 0 { PastLast(m[block]); }
      ghost var b1 := b;
      b, bit := NextMarked(m, block, b, bit);
      Advance(m0, m, bins, idx, b1, b);
      EmptyRing(fd, bk, bins, b);
      if Rd(bk, Bin(b)) != Bin(b) {
        return;
      }
      assert b / 32 == block && b % 32 == b - 32 * block;
      UnmarkEmpty(m, bins, b);
      ClearedOne(m0, m, idx, b);
      EmptyMore(bins, idx, b);
      m := m[block := Drop(m[block], bit)];
      BitStep(b - 32 * block);
      b, bit := b + 1, Shift(bit);
    }
  }
}
