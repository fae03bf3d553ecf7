/** The lists of free chunks: doubly linked circular bins and singly linked fastbins.

    `fd` and `bk` are the link words of chunks and bin headers.  `bins[i]` is the sequence of
    chunks of bin i from first to last; bin 1 is the unsorted queue. */
module Shelves {
  import opened Sizes
  import opened Layout

  type List = seq<int>

  ghost predicate NoDup(s: List) {
    forall i, j :: 0 <= i < j < |s| ==> s[i] != s[j]
  }

  function Without(s: List, k: int): List
    requires 0 <= k < |s|
  {
    s[..k] + s[k + 1..]
  }

  function InsertAt(s: List, k: int, c: int): List
    requires 0 <= k <= |s|
  {
    s[..k] + [c] + s[k..]
  }

  lemma WithoutMembers(s: List, k: int)
    requires 0 <= k < |s| && NoDup(s)
    ensures NoDup(Without(s, k))
    ensures forall x :: x in Without(s, k) <==> x in s && x != s[k]
  {
    var t := Without(s, k);
    forall x | x in s && x != s[k] ensures x in t {
      var i :| 0 <= i < |s| && s[i] == x;
      assert t[if i < k then i else i - 1] == x;
    }
  }

  lemma InsertMembers(s: List, k: int, c: int)
    requires 0 <= k <= |s| && NoDup(s) && c !in s
    ensures NoDup(InsertAt(s, k, c))
    ensures forall x :: x in InsertAt(s, k, c) <==> x in s || x == c
  {
    var t := InsertAt(s, k, c);
    forall x | x in s ensures x in t {
      var i :| 0 <= i < |s| && s[i] == x;
      assert t[if i < k then i else i + 1] == x;
    }
    assert t[k] == c;
  }

  // ------------------------------------------------------------ circular lists

  /** `bin_at`: headers sit 16 bytes apart, away from every chunk. */
  function Bin(i: int): int {
    16 * i - 2000
  }

  /** Element k of the ring that starts and ends at the header h. */
  function Node(h: int, s: List, k: int): int {
    if 0 <= k < |s| then s[k] else h
  }

  predicate Arc(fd: Words, bk: Words, h: int, s: List, k: int) {
    Rd(fd, Node(h, s, k)) == Node(h, s, k + 1) && Rd(bk, Node(h, s, k + 1)) == Node(h, s, k)
  }

  /** The links run through s in both directions and back to the header. */
  ghost predicate Ring(fd: Words, bk: Words, h: int, s: List) {
    forall k {:trigger Arc(fd, bk, h, s, k)} :: -1 <= k < |s| ==> Arc(fd, bk, h, s, k)
  }

  /** `unlink`: the neighbours of element k are linked to each other. */
  lemma UnlinkRing(fd: Words, bk: Words, h: int, s: List, k: int)
    requires Ring(fd, bk, h, s) && NoDup(s) && h !in s && 0 <= k < |s|
    ensures Rd(fd, s[k]) == Node(h, s, k + 1) && Rd(bk, s[k]) == Node(h, s, k - 1)
    ensures Ring(fd[Node(h, s, k - 1) := Node(h, s, k + 1)], bk[Node(h, s, k + 1) := Node(h, s, k - 1)],
                 h, Without(s, k))
  {
    var p, n := Node(h, s, k - 1), Node(h, s, k + 1);
    var fd', bk', t := fd[p := n], bk[n := p], Without(s, k);
    assert Arc(fd, bk, h, s, k - 1) && Arc(fd, bk, h, s, k);
    forall i {:trigger Arc(fd', bk', h, t, i)} | -1 <= i < |t| ensures Arc(fd', bk', h, t, i) {
      if i < k - 1 {
        assert Arc(fd, bk, h, s, i);
      } else if i >= k {
        assert Arc(fd, bk, h, s, i + 1);
      }
    }
  }

  /** A chunk c outside the ring is linked in as element k. */
  lemma InsertRing(fd: Words, bk: Words, h: int, s: List, k: int, c: int)
    requires Ring(fd, bk, h, s) && NoDup(s) && h !in s && 0 <= k <= |s| && c !in s && c != h
    ensures var p, n := Node(h, s, k - 1), Node(h, s, k);
            Ring(fd[c := n][p := c], bk[c := p][n := c], h, InsertAt(s, k, c))
  {
    var p, n := Node(h, s, k - 1), Node(h, s, k);
    var fd', bk', t := fd[c := n][p := c], bk[c := p][n := c], InsertAt(s, k, c);
    assert Arc(fd, bk, h, s, k - 1);
    forall i {:trigger Arc(fd', bk', h, t, i)} | -1 <= i < |t| ensures Arc(fd', bk', h, t, i) {
      if i < k - 1 {
        assert Arc(fd, bk, h, s, i);
      } else if i > k {
        assert Arc(fd, bk, h, s, i - 1);
      }
    }
  }

  lemma RingFrame(fd: Words, bk: Words, fd': Words, bk': Words, h: int, s: List)
    requires Ring(fd, bk, h, s)
    requires forall x :: x in s || x == h ==> Rd(fd', x) == Rd(fd, x) && Rd(bk', x) == Rd(bk, x)
    ensures Ring(fd', bk', h, s)
  {
    forall k {:trigger Arc(fd', bk', h, s, k)} | -1 <= k < |s| ensures Arc(fd', bk', h, s, k) {
      assert Arc(fd, bk, h, s, k);
    }
  }

  // ------------------------------------------------------------ bins

  ghost predicate BinHolds(ch: Chunks, bins: seq<List>, i: int)
    requires 0 <= i < |bins|
  {
    && NoDup(bins[i])
    && (forall c {:trigger c in bins[i]} :: c in bins[i] ==> c in ch && ch[c].st == Binned(i))
  }

  predicate Filed(ch: Chunks, bins: seq<List>, c: int)
    requires c in ch
  {
    ch[c].st.Binned? ==> 1 <= ch[c].st.bin < |bins| && c in bins[ch[c].st.bin]
  }

  /** Bin membership and chunk status agree, so every free chunk is in exactly one bin, once. */
  ghost predicate Shelved(ch: Chunks, bins: seq<List>) {
    && |bins| == NBINS
    && (forall i {:trigger BinHolds(ch, bins, i)} :: 0 <= i < |bins| ==> BinHolds(ch, bins, i))
    && (forall c {:trigger Filed(ch, bins, c)} :: c in ch ==> Filed(ch, bins, c))
  }

  ghost predicate RingAt(fd: Words, bk: Words, bins: seq<List>, i: int)
    requires 0 <= i < |bins|
  {
    Ring(fd, bk, Bin(i), bins[i])
  }

  ghost predicate Rings(fd: Words, bk: Words, bins: seq<List>) {
    forall i {:trigger RingAt(fd, bk, bins, i)} :: 1 <= i < |bins| ==> RingAt(fd, bk, bins, i)
  }

  /** A chunk of bin i has a size of bin i, and sizes do not increase from first to last. */
  ghost predicate SortedBin(ch: Chunks, bins: seq<List>, i: int)
    requires 0 <= i < |bins|
  {
    && (forall c {:trigger c in bins[i]} :: c in bins[i] ==> c in ch && ch[c].size >= 0 && BinIndex(ch[c].size) == i)
    && (forall j, k :: 0 <= j < k < |bins[i]| && bins[i][j] in ch && bins[i][k] in ch ==>
          ch[bins[i][j]].size >= ch[bins[i][k]].size)
  }

  ghost predicate Sorted(ch: Chunks, bins: seq<List>) {
    forall i {:trigger SortedBin(ch, bins, i)} :: 2 <= i < |bins| ==> SortedBin(ch, bins, i)
  }

  /** Chunks lie above address 0, bin headers below it. */
  ghost predicate Positive(ch: Chunks) {
    forall c :: c in ch ==> c > 0
  }

  lemma ShelvedUnlink(ch: Chunks, bins: seq<List>, i: int, k: int)
    requires Shelved(ch, bins) && 1 <= i < NBINS && 0 <= k < |bins[i]|
    ensures bins[i][k] in ch && ch[bins[i][k]].st == Binned(i)
    ensures Shelved(Mark(ch, bins[i][k], Loose), bins[i := Without(bins[i], k)])
  {
    assert BinHolds(ch, bins, i);
    var c := bins[i][k];
    assert c in bins[i];
    WithoutMembers(bins[i], k);
    var ch', bins' := Mark(ch, c, Loose), bins[i := Without(bins[i], k)];
    forall j {:trigger BinHolds(ch', bins', j)} | 0 <= j < |bins'| ensures BinHolds(ch', bins', j) {
      assert BinHolds(ch, bins, j);
    }
    forall d {:trigger Filed(ch', bins', d)} | d in ch' ensures Filed(ch', bins', d) {
      assert Filed(ch, bins, d);
    }
  }

  lemma ShelvedInsert(ch: Chunks, bins: seq<List>, i: int, k: int, c: int)
    requires Shelved(ch, bins) && 1 <= i < NBINS && 0 <= k <= |bins[i]|
    requires c in ch && !ch[c].st.Binned?
    ensures Shelved(Mark(ch, c, Binned(i)), bins[i := InsertAt(bins[i], k, c)])
  {
    assert BinHolds(ch, bins, i);
    InsertMembers(bins[i], k, c);
    var ch', bins' := Mark(ch, c, Binned(i)), bins[i := InsertAt(bins[i], k, c)];
    forall j {:trigger BinHolds(ch', bins', j)} | 0 <= j < |bins'| ensures BinHolds(ch', bins', j) {
      assert BinHolds(ch, bins, j);
    }
    forall d {:trigger Filed(ch', bins', d)} | d in ch' ensures Filed(ch', bins', d) {
      assert Filed(ch, bins, d);
    }
  }

  /** Writing links at nodes of bin i leaves the rings of the other bins alone. */
  lemma RingsElsewhere(ch: Chunks, bins: seq<List>, fd: Words, bk: Words, fd': Words, bk': Words,
                       i: int, s: List, c: int)
    requires Shelved(ch, bins) && Positive(ch) && Rings(fd, bk, bins) && 1 <= i < NBINS
    requires c > 0 && (c in ch ==> !ch[c].st.Binned? || ch[c].st == Binned(i))
    requires forall x :: x !in bins[i] && x != Bin(i) && x != c ==> Rd(fd', x) == Rd(fd, x) && Rd(bk', x) == Rd(bk, x)
    requires Ring(fd', bk', Bin(i), s)
    ensures Rings(fd', bk', bins[i := s])
  {
    var bins' := bins[i := s];
    assert BinHolds(ch, bins, i);
    forall j {:trigger RingAt(fd', bk', bins', j)} | 1 <= j < |bins'| ensures RingAt(fd', bk', bins', j) {
      assert BinHolds(ch, bins, j) && RingAt(fd, bk, bins, j);
      if j != i {
        RingFrame(fd, bk, fd', bk', Bin(j), bins[j]);
      }
    }
  }

  lemma RingsUnlink(ch: Chunks, bins: seq<List>, fd: Words, bk: Words, i: int, k: int)
    requires Shelved(ch, bins) && Positive(ch) && Rings(fd, bk, bins)
    requires 1 <= i < NBINS && 0 <= k < |bins[i]|
    ensures var p, n := Node(Bin(i), bins[i], k - 1), Node(Bin(i), bins[i], k + 1);
            && Rd(fd, bins[i][k]) == n && Rd(bk, bins[i][k]) == p
            && Rings(fd[p := n], bk[n := p], bins[i := Without(bins[i], k)])
  {
    assert BinHolds(ch, bins, i) && RingAt(fd, bk, bins, i);
    var p, n := Node(Bin(i), bins[i], k - 1), Node(Bin(i), bins[i], k + 1);
    assert Bin(i) < 0 && bins[i][k] in bins[i];
    UnlinkRing(fd, bk, Bin(i), bins[i], k);
    RingsElsewhere(ch, bins, fd, bk, fd[p := n], bk[n := p], i, Without(bins[i], k), bins[i][k]);
  }

  lemma RingsInsert(ch: Chunks, bins: seq<List>, fd: Words, bk: Words, i: int, k: int, c: int)
    requires Shelved(ch, bins) && Positive(ch) && Rings(fd, bk, bins)
    requires 1 <= i < NBINS && 0 <= k <= |bins[i]| && c in ch && !ch[c].st.Binned?
    ensures var p, n := Node(Bin(i), bins[i], k - 1), Node(Bin(i), bins[i], k);
            Rings(fd[c := n][p := c], bk[c := p][n := c], bins[i := InsertAt(bins[i], k, c)])
  {
    assert BinHolds(ch, bins, i) && RingAt(fd, bk, bins, i);
    var p, n := Node(Bin(i), bins[i], k - 1), Node(Bin(i), bins[i], k);
    assert Bin(i) < 0;
    InsertRing(fd, bk, Bin(i), bins[i], k, c);
    RingsElsewhere(ch, bins, fd, bk, fd[c := n][p := c], bk[c := p][n := c], i, InsertAt(bins[i], k, c), c);
  }

  lemma SortedUnlink(ch: Chunks, bins: seq<List>, i: int, k: int, ch': Chunks)
    requires Shelved(ch, bins) && Sorted(ch, bins) && 1 <= i < NBINS && 0 <= k < |bins[i]|
    requires forall c :: c in ch && ch[c].st.Binned? && c != bins[i][k] ==> c in ch' && ch'[c].size == ch[c].size
    ensures Sorted(ch', bins[i := Without(bins[i], k)])
  {
    hide BinIndex;
    assert BinHolds(ch, bins, i);
    WithoutMembers(bins[i], k);
    var bins' := bins[i := Without(bins[i], k)];
    forall j {:trigger SortedBin(ch', bins', j)} | 2 <= j < |bins'| ensures SortedBin(ch', bins', j) {
      assert BinHolds(ch, bins, j) && SortedBin(ch, bins, j);
      assert bins[i][k] in bins[i];
      forall a, b | 0 <= a < b < |bins'[j]| ensures bins'[j][a] in ch' && bins'[j][b] in ch'
          ==> ch'[bins'[j][a]].size >= ch'[bins'[j][b]].size {
        assert bins'[j][a] in bins[j] && bins'[j][b] in bins[j];
      }
    }
  }

  /** Placing a chunk behind all larger and in front of all smaller ones keeps the bin sorted. */
  lemma SortedInsert(ch: Chunks, bins: seq<List>, i: int, k: int, c: int)
    requires Shelved(ch, bins) && Sorted(ch, bins) && 2 <= i < NBINS && 0 <= k <= |bins[i]|
    requires c in ch && !ch[c].st.Binned? && ch[c].size >= 0 && BinIndex(ch[c].size) == i
    requires forall j :: 0 <= j < k && bins[i][j] in ch ==> ch[bins[i][j]].size >= ch[c].size
    requires forall j :: k <= j < |bins[i]| && bins[i][j] in ch ==> ch[c].size >= ch[bins[i][j]].size
    ensures Sorted(Mark(ch, c, Binned(i)), bins[i := InsertAt(bins[i], k, c)])
  {
    hide BinIndex;
    assert BinHolds(ch, bins, i);
    InsertMembers(bins[i], k, c);
    var ch', bins' := Mark(ch, c, Binned(i)), bins[i := InsertAt(bins[i], k, c)];
    forall j {:trigger SortedBin(ch', bins', j)} | 2 <= j < |bins'| ensures SortedBin(ch', bins', j) {
      assert BinHolds(ch, bins, j) && SortedBin(ch, bins, j);
      forall a, b | 0 <= a < b < |bins'[j]| ensures bins'[j][a] in ch' && bins'[j][b] in ch'
          ==> ch'[bins'[j][a]].size >= ch'[bins'[j][b]].size {
        assert a != k || j != i ==> bins'[j][a] in bins[j];
        assert b != k || j != i ==> bins'[j][b] in bins[j];
      }
    }
  }

  /** Changes to chunks outside the bins. */
  predicate SameShelf(ch: Chunks, ch': Chunks, c: int) {
    && (c in ch && ch[c].st.Binned? ==> c in ch' && ch'[c] == ch[c])
    && (c in ch' && ch'[c].st.Binned? ==> c in ch && ch[c].st.Binned?)
  }

  lemma ShelvesFrame(ch: Chunks, ch': Chunks, bins: seq<List>)
    requires Shelved(ch, bins) && Sorted(ch, bins)
    requires forall c {:trigger SameShelf(ch, ch', c)} :: SameShelf(ch, ch', c)
    ensures Shelved(ch', bins) && Sorted(ch', bins)
  {
    hide BinIndex;
    forall j {:trigger BinHolds(ch', bins, j)} | 0 <= j < |bins| ensures BinHolds(ch', bins, j) {
      assert BinHolds(ch, bins, j);
      forall c | c in bins[j] ensures c in ch' && ch'[c].st == Binned(j) { assert SameShelf(ch, ch', c); }
    }
    forall c {:trigger Filed(ch', bins, c)} | c in ch' ensures Filed(ch', bins, c) {
      assert SameShelf(ch, ch', c);
      if c in ch { assert Filed(ch, bins, c); }
    }
    forall j {:trigger SortedBin(ch', bins, j)} | 2 <= j < |bins| ensures SortedBin(ch', bins, j) {
      assert BinHolds(ch, bins, j) && SortedBin(ch, bins, j);
      forall c | c in bins[j] ensures c in ch' && ch'[c] == ch[c] { assert SameShelf(ch, ch', c); }
      forall a, b | 0 <= a < b < |bins[j]| ensures ch'[bins[j][a]].size >= ch'[bins[j][b]].size {
        assert bins[j][a] in bins[j] && bins[j][b] in bins[j];
      }
    }
  }

  // ------------------------------------------------------------ fastbins

  /** `fastbin_index`. */
  function FastIndex(size: int): int {
    size / 8 - 2
  }

  /** A null-terminated list through the `fd` words. */
  ghost predicate Chain(fd: Words, head: int, s: List) {
    && head == (if s == [] then 0 else s[0])
    && (forall k {:trigger s[k]} :: 0 <= k < |s| ==> Rd(fd, s[k]) == if k + 1 < |s| then s[k + 1] else 0)
  }

  ghost predicate FastHolds(ch: Chunks, fast: seq<List>, i: int)
    requires 0 <= i < |fast|
  {
    && NoDup(fast[i])
    && (forall c {:trigger c in fast[i]} :: c in fast[i] ==> c in ch && ch[c].st.Fast? && FastIndex(ch[c].size) == i)
  }

  predicate FastFiled(ch: Chunks, fast: seq<List>, c: int)
    requires c in ch
  {
    ch[c].st.Fast? ==> 0 <= FastIndex(ch[c].size) < |fast| && c in fast[FastIndex(ch[c].size)]
  }

  ghost predicate FastShelved(ch: Chunks, fast: seq<List>) {
    && |fast| == NFASTBINS
    && (forall i {:trigger FastHolds(ch, fast, i)} :: 0 <= i < |fast| ==> FastHolds(ch, fast, i))
    && (forall c {:trigger FastFiled(ch, fast, c)} :: c in ch ==> FastFiled(ch, fast, c))
  }

  ghost predicate ChainAt(fd: Words, heads: seq<int>, fast: seq<List>, i: int)
    requires 0 <= i < |fast| == |heads|
  {
    Chain(fd, heads[i], fast[i])
  }

  ghost predicate Chains(fd: Words, heads: seq<int>, fast: seq<List>) {
    && |heads| == |fast|
    && (forall i {:trigger ChainAt(fd, heads, fast, i)} :: 0 <= i < |fast| ==> ChainAt(fd, heads, fast, i))
  }

  /** `free` puts a chunk in front of its fastbin. */
  lemma FastPush(ch: Chunks, fast: seq<List>, fd: Words, heads: seq<int>, i: int, c: int)
    requires FastShelved(ch, fast) && Chains(fd, heads, fast) && 0 <= i < NFASTBINS
    requires c in ch && !ch[c].st.Fast? && FastIndex(ch[c].size) == i
    ensures FastShelved(Mark(ch, c, Fast), fast[i := [c] + fast[i]])
    ensures Chains(fd[c := heads[i]], heads[i := c], fast[i := [c] + fast[i]])
  {
    hide FastIndex;
    var ch', fast' := Mark(ch, c, Fast), fast[i := [c] + fast[i]];
    assert FastHolds(ch, fast, i);
    InsertMembers(fast[i], 0, c);
    assert InsertAt(fast[i], 0, c) == [c] + fast[i];
    forall j {:trigger FastHolds(ch', fast', j)} | 0 <= j < |fast'| ensures FastHolds(ch', fast', j) {
      assert FastHolds(ch, fast, j);
    }
    forall d {:trigger FastFiled(ch', fast', d)} | d in ch' ensures FastFiled(ch', fast', d) {
      assert FastFiled(ch, fast, d);
    }
    ChainsPush(ch, fast, fd, heads, i, c);
  }

  lemma ChainsPush(ch: Chunks, fast: seq<List>, fd: Words, heads: seq<int>, i: int, c: int)
    requires FastShelved(ch, fast) && Chains(fd, heads, fast) && 0 <= i < NFASTBINS
    requires c in ch && !ch[c].st.Fast?
    ensures Chains(fd[c := heads[i]], heads[i := c], fast[i := [c] + fast[i]])
  {
    hide FastIndex;
    var fast', fd', heads' := fast[i := [c] + fast[i]], fd[c := heads[i]], heads[i := c];
    forall j {:trigger ChainAt(fd', heads', fast', j)} | 0 <= j < |fast'| ensures ChainAt(fd', heads', fast', j) {
      assert ChainAt(fd, heads, fast, j) && FastHolds(ch, fast, j);
      assert forall k :: 0 <= k < |fast[j]| ==> fast[j][k] in fast[j];
    }
  }

  /** The first chunk of a fastbin leaves it. */
  lemma FastPop(ch: Chunks, fast: seq<List>, fd: Words, heads: seq<int>, i: int, st: Status)
    requires FastShelved(ch, fast) && Chains(fd, heads, fast) && 0 <= i < NFASTBINS && fast[i] != []
    requires !st.Fast?
    ensures heads[i] == fast[i][0] && heads[i] in ch && ch[heads[i]].st.Fast? && FastIndex(ch[heads[i]].size) == i
    ensures FastShelved(Mark(ch, heads[i], st), fast[i := fast[i][1..]])
    ensures Chains(fd, heads[i := Rd(fd, heads[i])], fast[i := fast[i][1..]])
  {
    hide FastIndex;
    assert FastHolds(ch, fast, i) && ChainAt(fd, heads, fast, i);
    var c := fast[i][0];
    assert c in fast[i];
    var ch', fast', heads' := Mark(ch, c, st), fast[i := fast[i][1..]], heads[i := Rd(fd, c)];
    WithoutMembers(fast[i], 0);
    assert Without(fast[i], 0) == fast[i][1..];
    forall j {:trigger FastHolds(ch', fast', j)} | 0 <= j < |fast'| ensures FastHolds(ch', fast', j) {
      assert FastHolds(ch, fast, j);
    }
    forall d {:trigger FastFiled(ch', fast', d)} | d in ch' ensures FastFiled(ch', fast', d) {
      assert FastFiled(ch, fast, d);
    }
    forall j {:trigger ChainAt(fd, heads', fast', j)} | 0 <= j < |fast'| ensures ChainAt(fd, heads', fast', j) {
      assert ChainAt(fd, heads, fast, j);
    }
  }

  /** Changes to chunks outside the fastbins. */
  predicate SameFast(ch: Chunks, ch': Chunks, c: int) {
    && (c in ch && ch[c].st.Fast? ==> c in ch' && ch'[c] == ch[c])
    && (c in ch' && ch'[c].st.Fast? ==> c in ch && ch[c].st.Fast?)
  }

  lemma FastFrame(ch: Chunks, ch': Chunks, fast: seq<List>, fd: Words, fd': Words, heads: seq<int>)
    requires FastShelved(ch, fast) && Chains(fd, heads, fast)
    requires forall c {:trigger SameFast(ch, ch', c)} :: SameFast(ch, ch', c)
    requires forall c :: c in ch && ch[c].st.Fast? ==> Rd(fd', c) == Rd(fd, c)
    ensures FastShelved(ch', fast) && Chains(fd', heads, fast)
  {
    hide FastIndex;
    forall j {:trigger FastHolds(ch', fast, j)} | 0 <= j < |fast| ensures FastHolds(ch', fast, j) {
      assert FastHolds(ch, fast, j);
      forall c | c in fast[j] ensures c in ch' && ch'[c] == ch[c] { assert SameFast(ch, ch', c); }
    }
    forall d {:trigger FastFiled(ch', fast, d)} | d in ch' ensures FastFiled(ch', fast, d) {
      assert SameFast(ch, ch', d);
      if d in ch { assert FastFiled(ch, fast, d); }
    }
    forall j {:trigger ChainAt(fd', heads, fast, j)} | 0 <= j < |fast| ensures ChainAt(fd', heads, fast, j) {
      assert ChainAt(fd, heads, fast, j) && FastHolds(ch, fast, j);
      assert forall k :: 0 <= k < |fast[j]| ==> fast[j][k] in fast[j];
    }
  }
}
