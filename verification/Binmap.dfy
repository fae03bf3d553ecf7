/** The one-level bitmap over the bins, in 32-bit words.  A set bit says that the bin may hold
    chunks; a clear bit says that it is empty. */
module Binmap {
  import opened Sizes

  type Word32 = bv32

  /** `1U << k`. */
  function Bit(k: nat): Word32 {
    if k == 0 then 1 else Bit(k - 1) << 1
  }

  /** `bit << 1`. */
  function Shift(b: Word32): Word32 {
    b << 1
  }

  /** `(bit & map) != 0`. */
  predicate Hits(b: Word32, w: Word32) {
    b & w != 0
  }

  /** `bit > map || bit == 0`: the rest of the word has no set bit. */
  predicate Past(b: Word32, w: Word32) {
    b > w || b == 0
  }

  predicate OneBit(b: Word32) {
    b != 0 && b & (b - 1) == 0
  }

  lemma BitValues(k: nat)
    requires k < 32
    ensures OneBit(Bit(k))
    ensures Bit(k) == 0x8000_0000 <==> k == 31
    ensures k < 31 ==> Bit(k + 1) == Bit(k) << 1
  {
    assert Bit(7) == 0x80 by { assert Bit(3) == 8; }
    assert Bit(15) == 0x8000 by { assert Bit(11) == 0x800; }
    assert Bit(23) == 0x80_0000 by { assert Bit(19) == 0x8_0000; }
    assert Bit(31) == 0x8000_0000 by { assert Bit(27) == 0x800_0000; }
  }

  /** Shifting a bit: the walk over a word ends with the bit shifted out. */
  lemma BitStep(k: nat)
    requires k < 32
    ensures Bit(k) != 0 && Bit(0) == 1
    ensures Shift(Bit(k)) == if k < 31 then Bit(k + 1) else 0
  {
    BitValues(k);
    assert Shift(0x8000_0000) == 0;
  }

  lemma BitsIncrease(j: nat, k: nat)
    requires j < k < 32
    ensures Bit(j) < Bit(k)
  {
    BitValues(k - 1);
    Doubling(Bit(k - 1));
    if j < k - 1 { BitsIncrease(j, k - 1); }
  }

  lemma Doubling(b: Word32)
    requires OneBit(b) && b != 0x8000_0000
    ensures b < b << 1
  {
  }

  lemma BitsDiffer(j: nat, k: nat)
    requires j < 32 && k < 32
    ensures Bit(j) == Bit(k) <==> j == k
  {
    if j < k { BitsIncrease(j, k); } else if k < j { BitsIncrease(k, j); }
  }

  lemma AboveAll(w: Word32, a: Word32, b: Word32)
    requires OneBit(a) && OneBit(b) && Past(a, w) && a <= b
    ensures !Hits(b, w)
  {
  }

  lemma NextAbove(map0: Word32, b: Word32)
    requires OneBit(b) && !Past(b, map0) && !Hits(b, map0)
    ensures b != 0x8000_0000 && !Past(Shift(b), map0)
  {
  }

  /** Otherwise some bit at or above k is set: stepping over a clear bit k never runs out. */
  lemma SomeAbove(map0: Word32, k: nat)
    requires k < 32 && !Past(Bit(k), map0) && !Hits(Bit(k), map0)
    ensures k < 31 && !Past(Bit(k + 1), map0)
  {
    hide Past, Hits, Shift;
    BitValues(k);
    BitStep(k);
    NextAbove(map0, Bit(k));
  }

  lemma PastLast(w: Word32)
    requires w != 0
    ensures !Past(1, w) && Past(0, w)
    ensures forall b {:trigger Past(b, 0)} :: Past(b, 0)
  {
    assert forall b {:trigger Past(b, 0)} :: b > 0 || b == 0;
  }

  // ------------------------------------------------------------ words

  predicate Has(w: Word32, k: nat) {
    Hits(Bit(k), w)
  }

  /** `map | bit`. */
  function Add(w: Word32, b: Word32): Word32 {
    w | b
  }

  /** `map & ~bit`. */
  function Drop(w: Word32, b: Word32): Word32 {
    w & !b
  }

  lemma SameMask(w: Word32, a: Word32)
    requires OneBit(a)
    ensures Hits(a, Add(w, a)) && !Hits(a, Drop(w, a))
  {
  }

  lemma OtherMask(w: Word32, a: Word32, b: Word32)
    requires OneBit(a) && OneBit(b) && a != b
    ensures Hits(b, Add(w, a)) == Hits(b, w) == Hits(b, Drop(w, a))
  {
    hide OneBit, Hits, Add, Drop;
    OneBitsDisjoint(a, b);
    AddMask(w, a, b);
    DropMask(w, a, b);
  }

  lemma AddMask(w: Word32, a: Word32, b: Word32)
    requires a & b == 0
    ensures Hits(b, Add(w, a)) == Hits(b, w)
  {
  }

  lemma DropMask(w: Word32, a: Word32, b: Word32)
    requires a & b == 0
    ensures Hits(b, Drop(w, a)) == Hits(b, w)
  {
  }

  lemma OneBitsDisjoint(a: Word32, b: Word32)
    requires OneBit(a) && OneBit(b) && a != b
    ensures a & b == 0
  {
  }

  lemma ChangeMask(w: Word32, a: Word32, b: Word32)
    requires OneBit(a) && OneBit(b)
    ensures Hits(b, Add(w, a)) <==> a == b || Hits(b, w)
    ensures Hits(b, Drop(w, a)) <==> a != b && Hits(b, w)
  {
    hide OneBit, Hits, Add, Drop;
    if a == b { SameMask(w, a); } else { OtherMask(w, a, b); }
  }

  /** Changing one bit of a word concerns that bit only. */
  lemma ChangeOne(w: Word32, k: nat, j: nat)
    requires k < 32 && j < 32
    ensures Has(Add(w, Bit(k)), j) <==> k == j || Has(w, j)
    ensures Has(Drop(w, Bit(k)), j) <==> k != j && Has(w, j)
  {
    hide Bit, OneBit, Drop, Add, Hits;
    BitValues(k);
    BitValues(j);
    BitsDiffer(k, j);
    ChangeMask(w, Bit(k), Bit(j));
  }

  /** Past bit k, no bit at or above k is set. */
  lemma NoneAbove(w: Word32, k: nat, j: nat)
    requires k <= j < 32 && Past(Bit(k), w)
    ensures !Has(w, j)
  {
    hide Bit, OneBit, Past, Hits;
    BitValues(k);
    BitValues(j);
    if k < j { BitsIncrease(k, j); }
    AboveAll(w, Bit(k), Bit(j));
  }

  lemma EmptyWord(k: nat)
    ensures !Has(0, k)
  {
    hide Bit, Hits;
    ZeroMask(Bit(k));
  }

  lemma ZeroMask(b: Word32)
    ensures !Hits(b, 0)
  {
  }

  // ------------------------------------------------------------ the map

  /** `get_binmap`. */
  predicate Marked(m: seq<Word32>, i: nat)
    requires |m| == 4 && i < 128
  {
    Has(m[i / 32], i % 32)
  }

  /** `mark_bin`. */
  function MarkBin(m: seq<Word32>, i: nat): seq<Word32>
    requires |m| == 4 && i < NBINS
  {
    m[i / 32 := Add(m[i / 32], Bit(i % 32))]
  }

  /** `unmark_bin`. */
  function UnmarkBin(m: seq<Word32>, i: nat): seq<Word32>
    requires |m| == 4 && i < NBINS
  {
    m[i / 32 := Drop(m[i / 32], Bit(i % 32))]
  }

  /** Marking and unmarking a bin concerns that bin only. */
  lemma MarkOne(m: seq<Word32>, i: nat, j: nat)
    requires |m| == 4 && i < NBINS && j < NBINS
    ensures |MarkBin(m, i)| == 4 && (Marked(MarkBin(m, i), j) <==> i == j || Marked(m, j))
    ensures |UnmarkBin(m, i)| == 4 && (Marked(UnmarkBin(m, i), j) <==> i != j && Marked(m, j))
    ensures MarkBin(m, i)[3] == m[3] && UnmarkBin(m, i)[3] == m[3]
  {
    hide Has, Add, Drop, Bit;
    if i / 32 == j / 32 {
      ChangeOne(m[i / 32], i % 32, j % 32);
    }
  }
}
